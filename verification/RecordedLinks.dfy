/** Which recorded link an evaluated link is. The evaluator makes an edge's links anew, at the
    celltype that its source has by then, and names them by their place in the recorded chain. */
module RecordedLinks {
  import opened Wrappers
  import opened Recipes
  import opened Fusion
  import opened Symbols
  import opened SaveReload
  import opened RetypedReload

  /** The recorded link at index `i` ends where the evaluated one does: up to it they have taken the
      same path and the same conversions. */
  ghost predicate EndsAlike(recorded: seq<Link>, links: seq<Link>, i: nat)
    requires i < |links|
  {
    && i < |recorded| && ConcatPaths(recorded[..i + 1]) == ConcatPaths(links[..i + 1])
    && Conversions(recorded[..i + 1]) == Conversions(links[..i + 1])
  }

  ghost predicate AllNamed(recorded: seq<Link>, links: seq<Link>) {
    forall i :: 0 <= i < |links| ==> EndsAlike(recorded, links, i)
  }

  predicate TwoPathsFirst(links: seq<Link>) {
    |links| >= 2 && links[0].path != [] && links[1].path != []
  }

  // ----- the links before the first conversion -----

  function Stop(path: Path, steps: seq<Step>): nat {
    if steps == [] then |path| else Clamp(steps[0].position, 0, |path|)
  }

  function AfterStop(path: Path, steps: seq<Step>): seq<Link> {
    if steps == [] then []
    else [Link(steps[0].celltype, [])] + LinksFrom(steps[0].celltype, path, Stop(path, steps), steps[1..])
  }

  lemma FirstStretch(t: Celltype, path: Path, steps: seq<Step>)
    ensures Stop(path, steps) <= |path|
    ensures LinksFrom(t, path, 0, steps) == PathLinks(t, path[..Stop(path, steps)]) + AfterStop(path, steps)
    ensures AfterStop(path, steps) != [] ==> AfterStop(path, steps)[0].path == []
  {
    if steps == [] {
      assert path[0..] == path == path[..|path|];
    } else {
      assert path[0..Stop(path, steps)] == path[..Stop(path, steps)];
      hide PathLinks;
      FirstStep(t, path, 0, steps);
    }
  }

  lemma {:induction false} OrdinaryStays(t: Celltype, path: Path)
    requires !IsDeep(t)
    ensures Projected(t, path) == t
    decreases |path|
  {
    if path != [] {
      OrdinaryStays(t, path[1..]);
    }
  }

  /** A stretch read at another celltype, over which its first recorded link is well-formed. */
  lemma StretchAt(origin: Celltype, now: Celltype, segment: Path)
    requires segment != [] ==>
               var first := PathLinks(origin, segment)[0]; !LinkMiswired(now, first.celltype, first.path)
    ensures if IsDeep(origin) && |segment| > 1 && !IsDeep(now) then
              PathLinks(now, segment) == [Link(PathLinks(origin, segment)[1].celltype, segment)]
            else PathLinks(now, segment) == PathLinks(origin, segment)
  {
    if IsDeep(origin) && |segment| > 1 {
      var first, rest := segment[..1], segment[1..];
      assert first + rest == segment;
      ProjectedConcat(origin, first, rest);
      ProjectedConcat(now, first, rest);
    }
  }

  lemma LostLinks(a: Link, b: Link, both: Link, rest: seq<Link>, i: nat)
    requires a.path != [] && b.path != [] && both.path == a.path + b.path && i < 1 + |rest|
    ensures !EndsAlike([a, b] + rest, [both] + rest, i)
  {
    var recorded, links := [a, b] + rest, [both] + rest;
    assert links[..i + 1] == [both] + rest[..i];
    ConcatPathsConcat([both], rest[..i]);
    OneLinkContent(both);
    OneLinkContent(a);
    if i == 0 {
      assert recorded[..1] == [a] && rest[..0] == [];
    } else {
      var last := rest[i - 1];
      assert recorded[..i + 1] == [a] + ([b] + rest[..i - 1]) && rest[..i] == rest[..i - 1] + [last];
      OneLinkContent(b);
      OneLinkContent(last);
      ConcatPathsConcat([a], [b] + rest[..i - 1]);
      ConcatPathsConcat([b], rest[..i - 1]);
      ConcatPathsConcat(rest[..i - 1], [last]);
    }
  }

  lemma EqualLinksAreNamed(links: seq<Link>)
    ensures AllNamed(links, links)
  {
  }

  /** Links made at one celltype against links recorded at another: the same but for two recorded
      path links at the start that are one by now. */
  lemma RetypedLinks(origin: Celltype, now: Celltype, path: Path, steps: seq<Step>)
    requires var recorded := LinksFrom(origin, path, 0, steps);
             recorded != [] ==> !LinkMiswired(now, recorded[0].celltype, recorded[0].path)
    ensures var recorded, links := LinksFrom(origin, path, 0, steps), LinksFrom(now, path, 0, steps);
            var lost := TwoPathsFirst(recorded) && !IsDeep(now);
            && (links == recorded <==> !lost)
            && (forall i :: 0 <= i < |links| ==> (EndsAlike(recorded, links, i) <==> !lost))
  {
    var recorded, links := LinksFrom(origin, path, 0, steps), LinksFrom(now, path, 0, steps);
    var segment, rest := path[..Stop(path, steps)], AfterStop(path, steps);
    FirstStretch(origin, path, steps);
    FirstStretch(now, path, steps);
    TwoPathsAre(origin, segment, rest);
    assert segment != [] ==> recorded[0] == PathLinks(origin, segment)[0];
    StretchAt(origin, now, segment);
    EqualLinksAreNamed(recorded);
    if TwoPathsFirst(recorded) && !IsDeep(now) {
      var a, b, both := recorded[0], recorded[1], links[0];
      TwoPathsAdd(origin, segment);
      assert recorded == [a, b] + rest && links == [both] + rest;
      assert |links| != |recorded|;
      hide EndsAlike, LinksFrom, PathLinks;
      forall i | 0 <= i < |links| ensures !EndsAlike(recorded, links, i) {
        LostLinks(a, b, both, rest, i);
      }
    }
  }

  lemma TwoPathsAre(t: Celltype, segment: Path, rest: seq<Link>)
    requires rest != [] ==> rest[0].path == []
    ensures TwoPathsFirst(PathLinks(t, segment) + rest) <==> IsDeep(t) && |segment| > 1
  {
  }

  lemma TwoPathsAdd(t: Celltype, segment: Path)
    requires IsDeep(t) && |segment| > 1
    ensures var links := PathLinks(t, segment);
            |links| == 2 && links[0].path != [] && links[1].path != [] && links[0].path + links[1].path == segment
  {
    assert segment[..1] + segment[1..] == segment;
  }

  // ----- a registered edge -----

  lemma FirstIsSound(graph: Graph, chain: seq<Recipe>)
    requires SaveReload.Rooted(chain) && StartsIn(graph, chain) && !ChainDefect(graph, chain)
    ensures !LinkMiswired(NodeCelltype(graph, chain[0].source.path), chain[0].celltype, chain[0].path)
  {
    assert !LinkDefect(graph, chain, 0);
  }

  /** While no recorded link is ill-formed, an index names the recorded link of an evaluated one
      exactly if the chain does not begin with two path links whose source is deep no more; then
      the links are the recorded ones. Where the recipe is cut at a deep step it always does. */
  lemma RecordedLinksIff(origin: Celltype, edge: Edge, graph: Graph)
    requires Registered(origin, edge) && StartsIn(graph, edge.chain) && SaveReload.Rooted(edge.chain)
    requires !ChainDefect(graph, edge.chain)
    ensures var now, recorded := NodeCelltype(graph, edge.chain[0].source.path), LinksOf(edge.chain);
            var links := AnonymousLinks(now, edge.sourcePath, edge.steps);
            var lost := TwoPathsFirst(recorded) && !IsDeep(now);
            && (links == recorded <==> !lost)
            && (forall i :: 0 <= i < |links| ==> (EndsAlike(recorded, links, i) <==> !lost))
            && (SplitDeepStep(now, edge.sourcePath, edge.steps).Some? ==> !lost)
  {
    var now, recorded := NodeCelltype(graph, edge.chain[0].source.path), LinksOf(edge.chain);
    FirstIsSound(graph, edge.chain);
    assert recorded[0] == Link(edge.chain[0].celltype, edge.chain[0].path);
    RetypedLinks(origin, now, edge.sourcePath, SortSteps(edge.steps));
    if SplitDeepStep(now, edge.sourcePath, edge.steps).Some? && !IsDeep(now) {
      CutAfterConversion(origin, now, edge.sourcePath, edge.steps);
    }
  }

  /** A cut below a source that is not deep comes after a conversion. */
  lemma CutAfterConversion(origin: Celltype, now: Celltype, path: Path, steps: seq<Step>)
    requires SplitDeepStep(now, path, steps).Some? && !IsDeep(now)
    ensures AnonymousLinks(origin, path, steps) != [] && AnonymousLinks(origin, path, steps)[0].path == []
  {
    var sorted := SortSteps(steps);
    SortedSplits(sorted);
    assert UpTo(sorted) != [] && sorted[0] == UpTo(sorted)[0] && sorted[0] in UpTo(sorted);
    assert path[..0] == [];
    FirstStretch(origin, path, sorted);
  }

  /** The prefix, the step and the links after it are the recorded ones at their indices. */
  lemma CutNamesTheLinks(origin: Celltype, edge: Edge, graph: Graph)
    requires Registered(origin, edge) && StartsIn(graph, edge.chain) && SaveReload.Rooted(edge.chain)
    requires !ChainDefect(graph, edge.chain)
    requires SplitDeepStep(NodeCelltype(graph, edge.chain[0].source.path), edge.sourcePath, edge.steps).Some?
    ensures var now := NodeCelltype(graph, edge.chain[0].source.path);
            var s := SplitDeepStep(now, edge.sourcePath, edge.steps).value;
            && !IsDeep(s.member)
            && LinksOf(edge.chain) ==
               ConversionLinks(s.prefix) + [Link(s.member, edge.sourcePath[..1])]
                 + AnonymousLinks(s.member, s.restPath, s.restSteps)
  {
    var now, path := NodeCelltype(graph, edge.chain[0].source.path), edge.sourcePath;
    var s := SplitDeepStep(now, path, edge.steps).value;
    RecordedLinksIff(origin, edge, graph);
    StepLink(now, path, edge.steps);
    var i := |s.prefix|;
    var recorded := LinksOf(edge.chain);
    assert recorded[i].path == edge.chain[i].path;
    assert ReadAt(graph, edge.chain, i) == Some(s.deep) by {
      if i > 0 {
        assert recorded[i - 1].celltype == edge.chain[i - 1].celltype;
      }
    }
    assert !LinkDefect(graph, edge.chain, i);
    assert path[0] == edge.chain[i].path[0];
    KeyedMember(s.deep, path);
    assert s.member == Projected(s.deep, path[..1]);
    DeepSplitAligns(now, path, edge.steps);
  }

  lemma KeyedMember(deep: Celltype, path: Path)
    requires path != [] && path[0].Key? && IsDeep(deep)
    ensures !IsDeep(Projected(deep, path[..1]))
  {
    assert path[..1] == [path[0]] && path[..1][1..] == [];
  }

  /** The link of the step follows those of the prefix, and begins with the step's component. */
  lemma StepLink(now: Celltype, path: Path, steps: seq<Step>)
    requires SplitDeepStep(now, path, steps).Some?
    ensures var s, links := SplitDeepStep(now, path, steps).value, AnonymousLinks(now, path, steps);
            && |s.prefix| < |links| && links[|s.prefix|].path != [] && links[|s.prefix|].path[0] == path[0]
            && IsDeep(s.deep)
            && s.deep == if s.prefix == [] then now else links[|s.prefix| - 1].celltype
  {
    var s, sorted := SplitDeepStep(now, path, steps).value, SortSteps(steps);
    var pre, beyond := UpTo(sorted), Beyond(sorted);
    SortedSplits(sorted);
    PrefixConversions(now, path, pre, beyond);
    FirstStretch(s.deep, path, beyond);
    assert beyond != [] ==> beyond[0] in beyond;
    var links := AnonymousLinks(now, path, steps);
    assert links == ConversionLinks(s.prefix) + LinksFrom(s.deep, path, 0, beyond);
    assert |ConversionLinks(s.prefix)| == |s.prefix|;
    var segment := path[..Stop(path, beyond)];
    assert segment != [] && segment[0] == path[0];
    FirstOfPath(s.deep, segment);
    hide PathLinks, LinksFrom, AfterStop, SplitDeepStep;
    assert links[|s.prefix|] == PathLinks(s.deep, segment)[0];
  }

  lemma FirstOfPath(t: Celltype, segment: Path)
    requires segment != []
    ensures PathLinks(t, segment) != [] && PathLinks(t, segment)[0].path != []
    ensures PathLinks(t, segment)[0].path[0] == segment[0]
  {
  }

  // ----- two such edges -----

  const BELOW: Path := [Key("x"), Key("y")]
  const TEXT := Named("text")
  const ORDINARY: Graph := map[["a"] := Cell(Mixed), ["b"] := Cell(TEXT)]

  function TwoSteps(first: Celltype): seq<Step> { [Step(2, first), Step(2, TEXT)] }

  /** Recorded over a deep cell: two path links and two conversions. */
  function TwoTurns(first: Celltype): Edge {
    SaveReload.Edge(["a"], BELOW, ["b"], [], true, TwoSteps(first),
      [Recipe(Node(["a"]), Mixed, [Key("x")]), Recipe(Anonymous(Symbol(0, 0)), Mixed, [Key("y")]),
       Recipe(Anonymous(Symbol(1, 0)), first, []), Recipe(Anonymous(Symbol(2, 0)), TEXT, [])])
  }

  lemma TwoTurnsLinks(t: Celltype, first: Celltype)
    ensures AnonymousLinks(t, BELOW, TwoSteps(first)) == PathLinks(t, BELOW) + [Link(first, []), Link(TEXT, [])]
  {
    var steps := TwoSteps(first);
    assert steps[1..] == [Step(2, TEXT)] && steps[1..][1..] == [];
    assert SortSteps(steps[1..]) == [Step(2, TEXT)] && SortSteps(steps) == steps;
    assert BELOW[0..2] == BELOW && BELOW[2..2] == [] && BELOW[2..] == [];
    assert LinksFrom(TEXT, BELOW, 2, []) == [];
    assert LinksFrom(first, BELOW, 2, [Step(2, TEXT)]) == [] + ([Link(TEXT, [])] + []);
    hide PathLinks;
    FirstStep(t, BELOW, 0, steps);
  }

  lemma TwoTurnsRecorded(first: Celltype)
    ensures LinksOf(TwoTurns(first).chain) == AnonymousLinks(Deepcell, BELOW, TwoSteps(first))
  {
    TwoTurnsLinks(Deepcell, first);
    assert BELOW[..1] == [Key("x")] && BELOW[1..] == [Key("y")] && BELOW[..1][1..] == [] && BELOW[1..][1..] == [];
    assert PathLinks(Deepcell, BELOW) == [Link(Mixed, [Key("x")]), Link(Mixed, [Key("y")])];
    hide AnonymousLinks, PathLinks;
  }

  lemma TwoTurnsRegistered(first: Celltype)
    ensures Registered(Deepcell, TwoTurns(first)) && StartsIn(ORDINARY, TwoTurns(first).chain)
    ensures SaveReload.Rooted(TwoTurns(first).chain) && !ChainDefect(ORDINARY, TwoTurns(first).chain)
  {
    var chain := TwoTurns(first).chain;
    TwoTurnsRecorded(first);
    AnonymousLinksContent(Deepcell, BELOW, TwoSteps(first));
    ChainPathOfLinks(chain);
    hide AnonymousLinks, ChainPath, LinksOf;
    forall i | 0 <= i < |chain| ensures !LinkDefect(ORDINARY, chain, i) {
      assert [Key("x")][1..] == [] && [Key("y")][1..] == [];
    }
  }

  lemma TwoTurnsRuns(first: Celltype)
    requires !IsDeep(first) && first != Mixed && first != TEXT
    ensures Runs({}, Mixed, AnonymousLinks(Mixed, BELOW, TwoSteps(first))) ==
            [Run(Mixed, BELOW, first, 1), Run(first, [], TEXT, 2)]
  {
    var a, b, c := Link(Mixed, BELOW), Link(first, []), Link(TEXT, []);
    TwoTurnsLinks(Mixed, first);
    assert BELOW[1..][1..] == [] && PathLinks(Mixed, BELOW) == [a];
    var links := [a, b, c];
    assert AnonymousLinks(Mixed, BELOW, TwoSteps(first)) == links;
    assert links[..2] == [a, b] && [a, b][..1] == [a] && [a][..0] == [];
    assert Fuse({}, Mixed, [a]) == Fuser([], Some(OpenRun(Run(Mixed, BELOW, Mixed, 0), false, false)), Mixed);
    assert Fuse({}, Mixed, [a, b]) == Fuser([], Some(OpenRun(Run(Mixed, BELOW, first, 1), true, false)), first);
    assert Fuse({}, Mixed, links) ==
           Fuser([Run(Mixed, BELOW, first, 1)], Some(OpenRun(Run(first, [], TEXT, 2), true, false)), TEXT);
  }

  lemma NothingToCut(first: Celltype)
    ensures SplitDeepStep(Mixed, BELOW, TwoSteps(first)).None?
  {
    var steps := TwoSteps(first);
    assert steps[1..] == [Step(2, TEXT)] && steps[1..][1..] == [];
    assert SortSteps(steps[1..]) == [Step(2, TEXT)] && SortSteps(steps) == steps;
    assert UpTo(steps[1..][1..]) == [] && UpTo(steps[1..]) == [] + [] && UpTo(steps) == [] + [];
  }

  /** A deep cell read at two components and converted twice, and then retyped to mixed: nothing is
      ill-formed and nothing is cut, but the first run's index names the recorded link of the second
      component, not that of the conversion at which the run ends. For two edges that convert to
      different celltypes it is the same one, so they write to the same symbol. */
  lemma RetypedDeepEdgesShareASymbol(first: Celltype, other: Celltype)
    requires !IsDeep(first) && first != Mixed && first != TEXT && !IsDeep(other) && other != Mixed && other != TEXT
    ensures Registered(Deepcell, TwoTurns(first)) && !ChainDefect(ORDINARY, TwoTurns(first).chain)
    ensures SplitDeepStep(Mixed, BELOW, TwoSteps(first)).None?
    ensures AnonymousLinks(Mixed, BELOW, TwoSteps(first)) == [Link(Mixed, BELOW), Link(first, []), Link(TEXT, [])]
    ensures Runs({}, Mixed, AnonymousLinks(Mixed, BELOW, TwoSteps(first))) ==
            [Run(Mixed, BELOW, first, 1), Run(first, [], TEXT, 2)]
    ensures Runs({}, Mixed, AnonymousLinks(Mixed, BELOW, TwoSteps(other))) ==
            [Run(Mixed, BELOW, other, 1), Run(other, [], TEXT, 2)]
    ensures TwoTurns(first).chain[1].celltype == Mixed && TwoTurns(first).chain[1].path == [Key("y")]
    ensures TwoTurns(first).chain[1] == TwoTurns(other).chain[1]
  {
    OrdinaryStays(Mixed, BELOW);
    assert PathLinks(Mixed, BELOW) == [Link(Mixed, BELOW)];
    hide Runs, AnonymousLinks, Registered, ChainDefect, SplitDeepStep, PathLinks, Projected;
    TwoTurnsRegistered(first);
    TwoTurnsRuns(first);
    TwoTurnsRuns(other);
    TwoTurnsLinks(Mixed, first);
    NothingToCut(first);
  }
}
