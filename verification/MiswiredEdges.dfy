/** When an edge is ill-formed, told by its recipe and the celltypes alone; and what that does to the
    node that it feeds. */
module MiswiredEdges {
  import opened Wrappers
  import opened Recipes
  import opened WellFormedLinks
  import opened Symbols
  import opened SaveReload
  import opened RetypedReload
  import opened RecordedLinks
  import D = Derivation
  import C = DerivedCauses

  // ----- a recipe's links, recorded at one celltype and read at another -----

  /** The path up to the first conversion, written at `origin` and read at `now`: it leads to the same
      celltype, a deep celltype is read by one key at a time, and no slice stays below one. */
  predicate ReadsOn(origin: Celltype, now: Celltype, segment: Path) {
    segment != [] ==>
      && Projected(now, segment) == Projected(origin, segment)
      && (IsDeep(now) ==> segment[0].Key? && (|segment| == 1 || IsDeep(origin)))
      && (IsDeep(origin) ==> !segment[0].Slice?)
  }

  /** Each later stretch of the path that is read below a deep celltype begins with a key. */
  ghost predicate LaterKeysFirst(path: Path, steps: seq<Step>) {
    forall i :: 1 <= i <= |steps| ==> KeyFirst(Mixed, path, 0, steps, i)
  }

  lemma FirstPartIff(origin: Celltype, now: Celltype, segment: Path)
    ensures AllWellFormed(now, PathLinks(origin, segment)) <==> ReadsOn(origin, now, segment)
  {
    var links := PathLinks(origin, segment);
    if segment != [] && IsDeep(origin) && |segment| > 1 {
      var first, rest := segment[..1], segment[1..];
      assert first + rest == segment && first[0] == segment[0] && first[1..] == [];
      ProjectedConcat(origin, first, rest);
      ProjectedConcat(now, first, rest);
      assert links == [links[0]] + [links[1]];
      Cuts(now, [links[0]], [links[1]]);
      OneWellFormed(now, links[0]);
      OneWellFormed(links[0].celltype, links[1]);
      assert Projected(origin, first) == Member(origin, segment[0]) && Projected(now, first) == Member(now, segment[0]);
      hide AllWellFormed;
      if !segment[0].Slice? {
        OrdinaryStays(Member(origin, segment[0]), rest);
        OrdinaryStays(Member(now, segment[0]), rest);
      }
    } else if segment != [] {
      OneWellFormed(now, links[0]);
      assert links == [links[0]];
      if IsDeep(origin) {
        assert segment[1..] == [];
        assert Projected(origin, segment) == Member(origin, segment[0]);
        assert Projected(now, segment) == Member(now, segment[0]);
      }
    }
  }

  lemma LaterPartsIff(path: Path, steps: seq<Step>)
    requires Sorted(steps)
    ensures forall t :: AllWellFormed(t, AfterStop(path, steps)) <==> LaterKeysFirst(path, steps)
  {
    if steps == [] {
    } else {
      var p, turn := Stop(path, steps), Link(steps[0].celltype, []);
      var rest := LinksFrom(steps[0].celltype, path, p, steps[1..]);
      LinksFromWellFormed(steps[0].celltype, path, p, steps[1..]);
      RestKeysFirst(Mixed, path, 0, steps);
      assert KeyFirst(Mixed, path, 0, steps, 0);
      assert KeysFirst(Mixed, path, 0, steps) <==> LaterKeysFirst(path, steps) by { hide KeyFirst; }
      forall t ensures AllWellFormed(t, AfterStop(path, steps)) <==> LaterKeysFirst(path, steps) {
        Cuts(t, [turn], rest);
        OneWellFormed(t, turn);
        hide AllWellFormed, KeysFirst, LaterKeysFirst, LinksFrom;
      }
    }
  }

  /** The recipe written at `origin` reads on at `now`. */
  ghost predicate Holds(origin: Celltype, now: Celltype, path: Path, steps: seq<Step>) {
    var sorted := SortSteps(steps);
    ReadsOn(origin, now, path[..Stop(path, sorted)]) && LaterKeysFirst(path, sorted)
  }

  lemma LinksHoldIff(origin: Celltype, now: Celltype, path: Path, steps: seq<Step>)
    ensures AllWellFormed(now, AnonymousLinks(origin, path, steps)) <==> Holds(origin, now, path, steps)
  {
    var sorted := SortSteps(steps);
    var first, rest := PathLinks(origin, path[..Stop(path, sorted)]), AfterStop(path, sorted);
    FirstStretch(origin, path, sorted);
    FirstPartIff(origin, now, path[..Stop(path, sorted)]);
    LaterPartsIff(path, sorted);
    hide AllWellFormed, LaterKeysFirst, ReadsOn, PathLinks, AfterStop, LinksFrom;
    Cuts(now, first, rest);
  }

  lemma DefectIff(graph: Graph, chain: seq<Recipe>)
    requires StartsIn(graph, chain) && SaveReload.Rooted(chain)
    ensures ChainDefect(graph, chain) <==>
      !AllWellFormed(NodeCelltype(graph, chain[0].source.path), LinksOf(chain))
  {
    var now, links := NodeCelltype(graph, chain[0].source.path), LinksOf(chain);
    forall i | 0 <= i < |chain|
      ensures LinkDefect(graph, chain, i) <==>
        LinkMiswired(TypeAfter(now, links[..i]), links[i].celltype, links[i].path)
    {
      assert i > 0 ==> links[..i][i - 1] == links[i - 1];
    }
    hide LinkDefect, LinkMiswired;
  }

  // ----- an edge -----

  /** What a target takes: a cell, at the path, its celltype projected; a transformer's pin, other than its
      code, the celltype declared for it, or mixed. */
  predicate Takes(graph: Graph, edge: Edge, u: Celltype)
    requires edge.target in graph
  {
    match graph[edge.target]
    case Cell(t) => Projected(t, edge.targetPath) == u
    case Transformer(pins) =>
      && |edge.targetPath| == 1 && edge.targetPath[0].Key? && edge.targetPath[0].key != "code"
      && u == if edge.targetPath[0].key in pins then pins[edge.targetPath[0].key] else Mixed
  }

  lemma TakesIff(graph: Graph, edge: Edge)
    requires edge.target in graph
    ensures forall u :: TargetCelltype(graph, edge) == Some(u) <==> Takes(graph, edge, u)
  {
    if |edge.targetPath| == 1 {
      assert edge.targetPath == [edge.targetPath[0]];
    }
  }

  /** The edge is the one link that it recorded: a path that splits nowhere, or one conversion, to what
      its target takes, unless that is a deep cell's slot. */
  predicate OneLink(origin: Celltype, graph: Graph, edge: Edge)
    requires edge.target in graph
  {
    || (edge.steps == [] && edge.sourcePath != [] && (IsDeep(origin) ==> |edge.sourcePath| == 1))
    || (edge.sourcePath == [] && |edge.steps| == 1 && Takes(graph, edge, edge.steps[0].celltype)
        && !(edge.targetPath != [] && graph[edge.target].Cell? && IsDeep(graph[edge.target].celltype)))
  }

  /** One link, read at the source's present celltype and for what the target takes by now. */
  ghost predicate ReadsAwry(now: Celltype, graph: Graph, edge: Edge)
    requires edge.target in graph
  {
    var path := edge.sourcePath;
    && path != []
    && ((IsDeep(now) && |path| > 1)
        || exists u :: Takes(graph, edge, u) && !IsDeep(u)
                  && (Projected(now, path) != u || (IsDeep(now) && !path[0].Key?)))
  }

  /** The edge as it was registered. */
  ghost predicate Written(origin: Celltype, graph: Graph, edge: Edge) {
    && Registered(origin, edge) && SaveReload.Rooted(edge.chain) && edge.source in graph && edge.target in graph
    && (edge.chain != [] ==> edge.chain[0].source == Node(edge.source)) && (edge.converts <==> edge.steps != [])
  }

  lemma OneLinkIff(origin: Celltype, graph: Graph, edge: Edge)
    requires Written(origin, graph, edge)
    ensures LooksThrough(graph, edge) <==> OneLink(origin, graph, edge)
    ensures LooksThrough(graph, edge) ==> edge.chain[0].path == edge.sourcePath
  {
    var links, path, sorted := LinksOf(edge.chain), edge.sourcePath, SortSteps(edge.steps);
    TakesIff(graph, edge);
    AnonymousLinksContent(origin, path, edge.steps);
    assert |Conversions(links)| == |edge.steps|;
    if |links| == 1 {
      assert links == [links[0]] && links[0] == Link(edge.chain[0].celltype, edge.chain[0].path);
      OneLinkContent(links[0]);
    }
    if edge.steps == [] {
      assert path[0..] == path;
      assert links == PathLinks(origin, path);
    } else if path == [] && |edge.steps| == 1 {
      OneStep(origin, edge.steps);
    }
    hide AnonymousLinks, Registered;
  }

  lemma OneStep(origin: Celltype, steps: seq<Step>)
    requires |steps| == 1
    ensures AnonymousLinks(origin, [], steps) == [Link(steps[0].celltype, [])]
  {
    SortOfSorted(steps);
    var path: Path := [];
    assert path[0..0] == [] && path[0..] == [] && steps[1..] == [];
    assert LinksFrom(steps[0].celltype, path, 0, []) == [];
  }

  /** An edge that is one link is miswired itself, if that link reads awry at its source's and target's
      present celltypes. Any other blocks its target, unless its recipe, as it was written, reads on at
      the source's present celltype. */
  lemma EdgeMiswiringIff(origin: Celltype, graph: Graph, edge: Edge)
    requires Written(origin, graph, edge)
    ensures var now := NodeCelltype(graph, edge.source);
            EdgeMiswiring(graph, edge) ==
            if OneLink(origin, graph, edge) then
              (if ReadsAwry(now, graph, edge) then Miswired else Fine)
            else if Holds(origin, now, edge.sourcePath, edge.steps) then Fine
            else BlockedByMiswiring
  {
    var now, path := NodeCelltype(graph, edge.source), edge.sourcePath;
    OneLinkIff(origin, graph, edge);
    TakesIff(graph, edge);
    if LooksThrough(graph, edge) {
      assert path[0..] == path && SortSteps([]) == [];
      hide OneLink, Registered, ChainDefect;
    } else {
      LinksHoldIff(origin, now, path, edge.steps);
      hide OneLink, AnonymousLinks, Holds, LooksThrough;
      if edge.chain == [] {
        assert LinksOf(edge.chain) == [];
      } else {
        DefectIff(graph, edge.chain);
      }
      hide ChainDefect;
    }
  }

  // ----- the node that it feeds -----

  /** The verdict on an edge in the wired graph: that of its miswiring, and of the other static tests
      that only the edge itself can fail. */
  predicate Wires(wiring: D.Wiring, m: Miswiring) {
    match m
    case Fine => !wiring.Above?
    case Miswired => wiring.Own?
    case BlockedByMiswiring => wiring.Above?
  }

  lemma LinkedVerdict(g: D.Wired, facts: D.Facts, states: D.States, n: nat)
    requires n in g.nodes && g.nodes[n].Linked?
    ensures var s, e := D.Rule(g, facts, states, n), g.nodes[n].edge;
            && (s.Miswired? <==> e.wiring.Own?)
            && (s == D.Blocked(D.ByMiswiring) <==>
                  e.wiring.Above? || (e.wiring.Sound? && C.Carries(D.StateAt(states, e.source), D.ByMiswiring)))
  {
    var body := g.nodes[n];
    var e, r := body.edge, D.Rooted(g, states, body);
    if r == body {
      hide D.Rooted, D.Follow, D.OwnOf;
      assert D.Rule(g, facts, states, n) == D.LinkedState(facts, states, e, D.OwnOf(g, body));
    } else {
      hide D.Follow, D.Fused, D.ProjectionRuns, D.OwnOf;
    }
  }

  /** A cell fed as a whole by an edge is miswired if the edge is, and blocked by miswiring exactly if
      the edge is or, through a sound one, the source carries that reason. */
  lemma MiswiredCell(g: D.Wired, facts: D.Facts, states: D.States, n: nat, origin: Celltype, graph: Graph, edge: Edge)
    requires Written(origin, graph, edge) && n in g.nodes && g.nodes[n].Linked?
    requires Wires(g.nodes[n].edge.wiring, EdgeMiswiring(graph, edge))
    ensures var now, s := NodeCelltype(graph, edge.source), D.Rule(g, facts, states, n);
            var e := g.nodes[n].edge;
            && (OneLink(origin, graph, edge) && ReadsAwry(now, graph, edge) ==>
                  s.Miswired?)
            && (s == D.Blocked(D.ByMiswiring) <==>
                  || (!OneLink(origin, graph, edge) && !Holds(origin, now, edge.sourcePath, edge.steps))
                  || (e.wiring.Sound? && C.Carries(D.StateAt(states, e.source), D.ByMiswiring)))
  {
    EdgeMiswiringIff(origin, graph, edge);
    LinkedVerdict(g, facts, states, n);
    hide OneLink, ReadsAwry, Holds, Written, EdgeMiswiring, D.Rule, C.Carries;
  }
}
