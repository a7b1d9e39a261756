/** A running edge and its reloaded twin after their source is retyped. Loading drops conversions
    that changed nothing at the time; what that does later depends on the first of them alone. */
module RetypedReload {
  import opened Wrappers
  import opened Recipes
  import opened Fusion
  import opened Handles
  import opened Symbols
  import opened SaveReload
  import opened ReloadMeaning

  // ----- handles without the turns that change nothing -----

  /** The handle that a link list spells. */
  function HandleOf(links: seq<Link>): seq<HandleLink> {
    if links == [] then []
    else (if links[0].path == [] then [Turn(links[0].celltype)] else Takes(links[0].path)) + HandleOf(links[1..])
  }

  function Thin(t: Celltype, links: seq<HandleLink>): seq<HandleLink>
    decreases |links|
  {
    if links == [] then []
    else if links[0].Take? then [links[0]] + Thin(Member(t, links[0].component), links[1..])
    else (if links[0].celltype != t then [links[0]] else []) + Thin(links[0].celltype, links[1..])
  }

  /** The first turn, if there is one, changes the celltype. */
  predicate FirstTurns(t: Celltype, links: seq<HandleLink>)
    decreases |links|
  {
    if links == [] then true
    else if links[0].Take? then FirstTurns(Member(t, links[0].component), links[1..])
    else links[0].celltype != t
  }

  lemma HandleHead(link: HandleLink, rest: seq<HandleLink>)
    ensures ([link] + rest)[0] == link && ([link] + rest)[1..] == rest
  {
  }

  /** Over the celltype it was thinned for, a thin handle does what the whole one does. */
  lemma {:induction false} ThinMeans(sem: Semantics, c: Outcome, t: Celltype, links: seq<HandleLink>)
    ensures EvalHandle(sem, c, t, Thin(t, links)) == EvalHandle(sem, c, t, links)
    decreases |links|
  {
    if links != [] {
      var first, rest := links[0], links[1..];
      if first.Take? {
        var next := Member(t, first.component);
        HandleHead(first, Thin(next, rest));
        ThinMeans(sem, EvalExpression(sem, c, t, [first.component], next), next, rest);
      } else if first.celltype != t {
        HandleHead(first, Thin(first.celltype, rest));
        ThinMeans(sem, EvalExpression(sem, c, t, [], first.celltype), first.celltype, rest);
      } else {
        assert [] + Thin(t, rest) == Thin(t, rest);
        ThinMeans(sem, c, t, rest);
      }
    }
  }

  /** And over any other, if its first turn was kept: from there on the celltypes are the same. */
  lemma {:induction false} ThinMeansAnywhere(sem: Semantics, c: Outcome, t: Celltype, later: Celltype,
      links: seq<HandleLink>)
    requires FirstTurns(t, links)
    ensures EvalHandle(sem, c, later, Thin(t, links)) == EvalHandle(sem, c, later, links)
    decreases |links|
  {
    if links != [] {
      var first, rest := links[0], links[1..];
      if first.Take? {
        var next := Member(later, first.component);
        HandleHead(first, Thin(Member(t, first.component), rest));
        ThinMeansAnywhere(sem, EvalExpression(sem, c, later, [first.component], next), Member(t, first.component),
          next, rest);
      } else {
        HandleHead(first, Thin(first.celltype, rest));
        ThinMeans(sem, EvalExpression(sem, c, later, [], first.celltype), first.celltype, rest);
        ThinMeans(sem, c, first.celltype, rest);
      }
    }
  }

  // ----- a semantics that counts conversions -----

  function CountedItem(c: Checksum, t: Celltype, component: Component): Outcome { Got(c) }

  function CountedTurn(c: Checksum, t: Celltype, u: Celltype): Outcome { if t == u then Got(c) else Got(c + 1) }

  const COUNTING := Semantics(CountedItem, CountedTurn, {})

  lemma CountingIsLawful()
    ensures Lawful(COUNTING)
  {
  }

  function Changes(t: Celltype, links: seq<HandleLink>): nat
    decreases |links|
  {
    if links == [] then 0
    else if links[0].Take? then Changes(Member(t, links[0].component), links[1..])
    else (if links[0].celltype != t then 1 else 0) + Changes(links[0].celltype, links[1..])
  }

  lemma TakeCounts(c: Checksum, t: Celltype, component: Component)
    ensures EvalExpression(COUNTING, Got(c), t, [component], Member(t, component)) == Got(c)
  {
    assert [component][1..] == [];
    assert Projected(t, [component]) == Projected(Member(t, component), []);
    assert Project(COUNTING, Got(c), t, [component]) ==
      Project(COUNTING, CountedItem(c, t, component), Member(t, component), []);
  }

  lemma {:induction false} CountingCounts(c: Checksum, t: Celltype, links: seq<HandleLink>)
    ensures EvalHandle(COUNTING, Got(c), t, links) == Got(c + Changes(t, links))
    decreases |links|
  {
    if links != [] {
      var first, rest := links[0], links[1..];
      if first.Take? {
        TakeCounts(c, t, first.component);
        CountingCounts(c, Member(t, first.component), rest);
      } else if first.celltype != t {
        assert EvalExpression(COUNTING, Got(c), t, [], first.celltype) == Got(c + 1);
        CountingCounts(c + 1, first.celltype, rest);
      } else {
        CountingCounts(c, t, rest);
      }
    }
  }

  /** Started elsewhere, a thin handle has no more changes than it has turns. */
  lemma {:induction false} ThinChangesLess(t: Celltype, other: Celltype, links: seq<HandleLink>)
    ensures Changes(other, Thin(t, links)) <= Changes(t, links)
    decreases |links|
  {
    if links != [] {
      var first, rest := links[0], links[1..];
      if first.Take? {
        HandleHead(first, Thin(Member(t, first.component), rest));
        ThinChangesLess(Member(t, first.component), Member(other, first.component), rest);
      } else if first.celltype != t {
        HandleHead(first, Thin(first.celltype, rest));
        ThinChangesLess(first.celltype, first.celltype, rest);
      } else {
        assert [] + Thin(t, rest) == Thin(t, rest);
        ThinChangesLess(t, other, rest);
      }
    }
  }

  function FirstTurn(links: seq<HandleLink>): Option<Celltype> {
    if links == [] then None else if links[0].Turn? then Some(links[0].celltype) else FirstTurn(links[1..])
  }

  /** With the first turn dropped, a celltype unlike it tells the two handles apart. */
  lemma {:induction false} DroppedTurnShows(t: Celltype, other: Celltype, links: seq<HandleLink>)
    requires !FirstTurns(t, links) && other.Named? && FirstTurn(links) != Some(other)
    ensures Changes(other, Thin(t, links)) < Changes(other, links)
    decreases |links|
  {
    var first, rest := links[0], links[1..];
    if first.Take? {
      HandleHead(first, Thin(Member(t, first.component), rest));
      DroppedTurnShows(Member(t, first.component), other, rest);
    } else {
      assert [] + Thin(t, rest) == Thin(t, rest);
      ThinChangesLess(t, other, rest);
    }
  }

  /** A celltype unlike `t`. */
  function Unlike(t: Option<Celltype>): (u: Celltype)
    ensures u.Named? && t != Some(u)
  {
    if t == Some(Named("")) then Named("x") else Named("")
  }

  // ----- the handles of an edge and of its reloaded twin -----

  lemma {:induction false} HandleOfConcat(a: seq<Link>, b: seq<Link>)
    ensures HandleOf(a + b) == HandleOf(a) + HandleOf(b)
    decreases |a|
  {
    if a == [] {
      assert a + b == b;
    } else {
      assert (a + b)[0] == a[0] && (a + b)[1..] == a[1..] + b;
      HandleOfConcat(a[1..], b);
    }
  }

  lemma HandleOfOne(link: Link)
    ensures HandleOf([link]) == if link.path == [] then [Turn(link.celltype)] else Takes(link.path)
  {
    assert [link][1..] == [] && HandleOf([]) == [];
  }

  lemma HandleOfPath(t: Celltype, segment: Path)
    ensures HandleOf(PathLinks(t, segment)) == Takes(segment)
  {
    var links := PathLinks(t, segment);
    if |links| == 1 {
      HandleOfOne(links[0]);
    } else if |links| == 2 {
      assert links == [links[0]] + [links[1]] && segment[..1] + segment[1..] == segment;
      HandleOfConcat([links[0]], [links[1]]);
      HandleOfOne(links[0]);
      HandleOfOne(links[1]);
      TakesConcat(segment[..1], segment[1..]);
    }
  }

  lemma {:induction false} HandleOfLinks(t: Celltype, path: Path, position: nat, steps: seq<Step>)
    requires position <= |path|
    ensures HandleOf(LinksFrom(t, path, position, steps)) == HandleFrom(path, position, steps)
    decreases |steps|
  {
    if steps == [] {
      HandleOfPath(t, path[position..]);
    } else {
      var p, u := Clamp(steps[0].position, position, |path|), steps[0].celltype;
      var front, rest := PathLinks(t, path[position..p]), LinksFrom(u, path, p, steps[1..]);
      HandleOfPath(t, path[position..p]);
      HandleOfOne(Link(u, []));
      FirstStep(t, path, position, steps);
      hide LinksFrom, PathLinks, HandleOf;
      HandleOfLinks(u, path, p, steps[1..]);
      HandleOfConcat(front, [Link(u, [])] + rest);
      HandleOfConcat([Link(u, [])], rest);
    }
  }

  lemma {:induction false} ThinConcat(t: Celltype, a: seq<HandleLink>, b: seq<HandleLink>)
    ensures Thin(t, a + b) == Thin(t, a) + Thin(HandleCelltype(t, a), b)
    decreases |a|
  {
    if a == [] {
      assert a + b == b;
    } else {
      assert (a + b)[0] == a[0] && (a + b)[1..] == a[1..] + b;
      ThinConcat(if a[0].Take? then Member(t, a[0].component) else a[0].celltype, a[1..], b);
    }
  }

  lemma {:induction false} ThinTakes(t: Celltype, path: Path)
    ensures Thin(t, Takes(path)) == Takes(path) && HandleCelltype(t, Takes(path)) == Projected(t, path)
    decreases |path|
  {
    if path != [] {
      HandleHead(Take(path[0]), Takes(path[1..]));
      ThinTakes(Member(t, path[0]), path[1..]);
    }
  }

  /** What the last link of a chain adds to its thin handle. */
  function LastOf(path: Path, before: Celltype, after: Celltype): seq<HandleLink> {
    if path != [] then Takes(path) else if after != before then [Turn(after)] else []
  }

  lemma ThinLast(t: Celltype, before: Celltype, init: seq<Link>, last: Link)
    requires HandleCelltype(t, HandleOf(init)) == before
    requires (last.path != [] ==> last.celltype == Projected(before, last.path))
    ensures Thin(t, HandleOf(init + [last])) ==
            Thin(t, HandleOf(init)) + LastOf(last.path, before, last.celltype)
    ensures HandleCelltype(t, HandleOf(init + [last])) == last.celltype
  {
    var end := HandleOf([last]);
    HandleOfConcat(init, [last]);
    HandleOfOne(last);
    ThinConcat(t, HandleOf(init), end);
    HandleCelltypeConcat(t, HandleOf(init), end);
    ThinTakes(before, last.path);
    assert last.path == [] ==> end[1..] == [];
  }

  /** What a chain rebuilds to is its thin handle. */
  lemma {:induction false} RebuiltIsThin(root: Celltype, t: Celltype, chain: seq<Recipe>)
    requires WellTyped(t, LinksOf(chain)) && (chain != [] && chain[0].path == [] ==> t == root)
    ensures HandleFrom(ChainPath(chain), 0, ChainSteps(root, chain)) == Thin(t, HandleOf(LinksOf(chain)))
    ensures HandleCelltype(t, HandleOf(LinksOf(chain))) == TypeAfter(t, LinksOf(chain))
  {
    if chain != [] {
      var n := |chain| - 1;
      var init, last := chain[..n], chain[n];
      assert init + [last] == chain && (init != [] ==> init[0] == chain[0]);
      LastIsTyped(t, init, last);
      hide *;
      RebuiltIsThin(root, t, init);
      ThinGrows(root, t, init, last);
    }
  }

  lemma LastIsTyped(t: Celltype, init: seq<Recipe>, last: Recipe)
    requires WellTyped(t, LinksOf(init + [last]))
    ensures WellTyped(t, LinksOf(init))
    ensures last.path != [] ==> last.celltype == Projected(TypeAfter(t, LinksOf(init)), last.path)
  {
    var links, link := LinksOf(init + [last]), Link(last.celltype, last.path);
    assert links == LinksOf(init) + [link] && links[..|init|] == LinksOf(init) && links[|init|] == link;
    InitWellTyped(t, LinksOf(init), link);
  }

  lemma ThinGrows(root: Celltype, t: Celltype, init: seq<Recipe>, last: Recipe)
    requires HandleFrom(ChainPath(init), 0, ChainSteps(root, init)) == Thin(t, HandleOf(LinksOf(init)))
    requires HandleCelltype(t, HandleOf(LinksOf(init))) == TypeAfter(t, LinksOf(init))
    requires last.path != [] ==> last.celltype == Projected(TypeAfter(t, LinksOf(init)), last.path)
    requires init == [] && last.path == [] ==> t == root
    ensures var chain := init + [last];
            && HandleFrom(ChainPath(chain), 0, ChainSteps(root, chain)) == Thin(t, HandleOf(LinksOf(chain)))
            && HandleCelltype(t, HandleOf(LinksOf(chain))) == TypeAfter(t, LinksOf(chain))
  {
    var link := Link(last.celltype, last.path);
    assert LinksOf(init + [last]) == LinksOf(init) + [link];
    assert TypeAfter(t, LinksOf(init) + [link]) == last.celltype;
    BeforeLast(root, t, init, last);
    hide *;
    ChainStepsInOrder(root, init);
    ThinLast(t, TypeAfter(t, LinksOf(init)), LinksOf(init), link);
    RebuiltLast(root, init, last);
  }

  lemma InitWellTyped(t: Celltype, init: seq<Link>, last: Link)
    requires WellTyped(t, init + [last])
    ensures WellTyped(t, init)
  {
    var all := init + [last];
    forall i | 0 <= i < |init| && init[i].path != []
      ensures init[i].celltype == Projected(TypeAfter(t, init[..i]), init[i].path) {
      assert all[i] == init[i] && all[..i] == init[..i];
    }
  }

  lemma BeforeLast(root: Celltype, t: Celltype, init: seq<Recipe>, last: Recipe)
    requires init == [] && last.path == [] ==> t == root
    ensures last.path == [] ==> TypeAfter(t, LinksOf(init)) == if init == [] then root else init[|init| - 1].celltype
  {
  }

  lemma RebuiltLast(root: Celltype, init: seq<Recipe>, last: Recipe)
    requires Within(ChainSteps(root, init), |ChainPath(init)|)
    ensures var chain, before := init + [last], if init == [] then root else init[|init| - 1].celltype;
            HandleFrom(ChainPath(chain), 0, ChainSteps(root, chain)) ==
            HandleFrom(ChainPath(init), 0, ChainSteps(root, init))
              + LastOf(last.path, before, last.celltype)
  {
    var chain, path, steps := init + [last], ChainPath(init), ChainSteps(root, init);
    assert chain[..|chain| - 1] == init;
    assert steps + [] == steps && path + [] == path;
    if last.path != [] {
      HandleExtendsPath(path, last.path, 0, steps);
    } else {
      HandleAddsTurn(path, 0, steps, last.celltype);
    }
  }

  // ----- the first conversion of a chain -----

  /** The chain's first conversion, if it has one, changed the celltype: that of the link before
      it, or the root's at the time of loading. */
  ghost predicate FirstConverts(root: Celltype, links: seq<Link>) {
    forall i :: 0 <= i < |links| && links[i].path == [] && (forall j :: 0 <= j < i ==> links[j].path != []) ==>
      links[i].celltype != TypeAfter(root, links[..i])
  }

  lemma {:induction false} FirstConvertsTurns(t: Celltype, links: seq<Link>)
    requires WellTyped(t, links)
    ensures FirstConverts(t, links) <==> FirstTurns(t, HandleOf(links))
    decreases |links|
  {
    if links != [] {
      var first, rest := links[0], links[1..];
      assert links[..0] == [];
      if first.path == [] {
        assert HandleOf(links) == [Turn(first.celltype)] + HandleOf(rest);
        if first.celltype != t {
          forall i | 0 <= i < |links| && links[i].path == [] && (forall j :: 0 <= j < i ==> links[j].path != [])
            ensures links[i].celltype != TypeAfter(t, links[..i])
          {
            assert i == 0;
          }
        }
      } else {
        RestWellTyped(t, links);
        FirstConvertsTurns(first.celltype, rest);
        TakesTurn(t, first.path, HandleOf(rest));
        RestConverts(t, links);
      }
    }
  }

  lemma RestWellTyped(t: Celltype, links: seq<Link>)
    requires links != [] && WellTyped(t, links)
    ensures WellTyped(links[0].celltype, links[1..])
    ensures links[0].path != [] ==> links[0].celltype == Projected(t, links[0].path)
  {
    var rest := links[1..];
    assert links[..0] == [];
    forall i | 0 <= i < |rest| && rest[i].path != []
      ensures rest[i].celltype == Projected(TypeAfter(links[0].celltype, rest[..i]), rest[i].path) {
      assert links[..i + 1] == [links[0]] + rest[..i];
      assert links[i + 1].celltype == Projected(TypeAfter(t, links[..i + 1]), links[i + 1].path);
    }
  }

  lemma RestConverts(t: Celltype, links: seq<Link>)
    requires links != [] && links[0].path != []
    ensures FirstConverts(t, links) <==> FirstConverts(links[0].celltype, links[1..])
  {
    var rest := links[1..];
    forall i | 0 <= i < |rest|
      ensures TypeAfter(t, links[..i + 1]) == TypeAfter(links[0].celltype, rest[..i])
      ensures (forall j :: 0 <= j < i ==> rest[j].path != []) <==> (forall j :: 0 <= j < i + 1 ==> links[j].path != [])
    {
      assert links[..i + 1] == [links[0]] + rest[..i];
      if forall j :: 0 <= j < i ==> rest[j].path != [] {
        forall j | 0 <= j < i + 1 ensures links[j].path != [] {
          assert j > 0 ==> links[j] == rest[j - 1];
        }
      }
    }
    if FirstConverts(links[0].celltype, rest) {
      forall i | 0 <= i < |links| && links[i].path == [] && (forall j :: 0 <= j < i ==> links[j].path != [])
        ensures links[i].celltype != TypeAfter(t, links[..i])
      {
        assert rest[i - 1] == links[i];
      }
    }
  }

  lemma {:induction false} TakesTurn(t: Celltype, path: Path, rest: seq<HandleLink>)
    ensures FirstTurns(t, Takes(path) + rest) == FirstTurns(Projected(t, path), rest)
    decreases |path|
  {
    if path == [] {
      assert Takes(path) + rest == rest;
    } else {
      assert (Takes(path) + rest)[0] == Take(path[0]) && (Takes(path) + rest)[1..] == Takes(path[1..]) + rest;
      TakesTurn(Member(t, path[0]), path[1..], rest);
    }
  }

  // ----- the two edges -----

  /** What the fused runs of an edge evaluate to over a source of celltype `root`. */
  function Evaluated(sem: Semantics, c: Outcome, root: Celltype, edge: Edge): Outcome {
    EvalRuns(sem, c, Runs(sem.preserving, root, AnonymousLinks(root, edge.sourcePath, edge.steps)))
  }

  ghost predicate Alike(sem: Semantics, c: Outcome, later: Celltype, edge: Edge, loaded: Edge) {
    Lawful(sem) ==> Evaluated(sem, c, later, edge) == Evaluated(sem, c, later, loaded)
  }

  /** The edge was registered over a source of celltype `origin`. */
  ghost predicate Registered(origin: Celltype, edge: Edge) {
    && LinksOf(edge.chain) == AnonymousLinks(origin, edge.sourcePath, edge.steps)
    && ChainPath(edge.chain) == edge.sourcePath
  }

  /** The celltype over which a chain is thinned: only a chain that begins with a conversion reads
      the root's at the time of loading. */
  function Thinning(origin: Celltype, root: Celltype, chain: seq<Recipe>): Celltype {
    if chain != [] && chain[0].path == [] then root else origin
  }

  function ThinFor(origin: Celltype, graph: Graph, edge: Edge): Celltype
    requires StartsIn(graph, edge.chain)
  {
    Thinning(origin, NodeCelltype(graph, edge.chain[0].source.path), edge.chain)
  }

  lemma {:induction false} WellTypedFromConversion(origin: Celltype, root: Celltype, links: seq<Link>)
    requires WellTyped(origin, links) && links != [] && links[0].path == []
    ensures WellTyped(root, links)
  {
    forall i | 0 <= i < |links| && links[i].path != []
      ensures links[i].celltype == Projected(TypeAfter(root, links[..i]), links[i].path) {
      assert TypeAfter(root, links[..i]) == TypeAfter(origin, links[..i]);
    }
  }

  /** The edge evaluates as its handle, and the reloaded one as its thin handle. */
  lemma EvaluatedByHandle(sem: Semantics, c: Outcome, origin: Celltype, later: Celltype, graph: Graph, edge: Edge,
      target: NodePath, targetPath: Path)
    requires Lawful(sem) && Registered(origin, edge) && StartsIn(graph, edge.chain)
    ensures var root := NodeCelltype(graph, edge.chain[0].source.path);
            var t, handle := Thinning(origin, root, edge.chain), HandleOf(LinksOf(edge.chain));
            && Evaluated(sem, c, later, edge) == EvalHandle(sem, c, later, handle)
            && Evaluated(sem, c, later, Reloaded(graph, edge.chain, target, targetPath)) ==
               EvalHandle(sem, c, later, Thin(t, handle))
            && WellTyped(t, LinksOf(edge.chain))
  {
    var root := NodeCelltype(graph, edge.chain[0].source.path);
    var t, sorted := Thinning(origin, root, edge.chain), SortSteps(edge.steps);
    HandleOfLinks(origin, edge.sourcePath, 0, sorted);
    AnonymousLinksWellTyped(origin, edge.sourcePath, edge.steps);
    if edge.chain[0].path == [] {
      WellTypedFromConversion(origin, root, LinksOf(edge.chain));
    }
    SortOfSorted(sorted);
    assert AnonymousLinks(later, edge.sourcePath, edge.steps) == AnonymousLinks(later, edge.sourcePath, sorted);
    RebuiltIsThin(root, t, edge.chain);
    ChainStepsInOrder(root, edge.chain);
    hide AnonymousLinks, EvalRuns, EvalHandle, HandleFrom, Thin, WellTyped;
    HandleMeansRuns(sem, c, later, edge.sourcePath, sorted);
    HandleMeansRuns(sem, c, later, ChainPath(edge.chain), ChainSteps(root, edge.chain));
  }

  lemma DroppedFirstDiverges(origin: Celltype, graph: Graph, edge: Edge, target: NodePath, targetPath: Path)
      returns (later: Celltype)
    requires Registered(origin, edge) && StartsIn(graph, edge.chain)
    requires !FirstTurns(ThinFor(origin, graph, edge), HandleOf(LinksOf(edge.chain)))
    ensures later.Named? && !Alike(COUNTING, Got(0), later, edge, Reloaded(graph, edge.chain, target, targetPath))
  {
    var t, handle := ThinFor(origin, graph, edge), HandleOf(LinksOf(edge.chain));
    later := Unlike(FirstTurn(handle));
    CountingIsLawful();
    EvaluatedByHandle(COUNTING, Got(0), origin, later, graph, edge, target, targetPath);
    DroppedTurnShows(t, later, handle);
    CountingCounts(0, later, handle);
    CountingCounts(0, later, Thin(t, handle));
  }

  lemma SameFirst(origin: Celltype, root: Celltype, chain: seq<Recipe>)
    requires chain != []
    ensures FirstConverts(Thinning(origin, root, chain), LinksOf(chain)) <==> FirstConverts(root, LinksOf(chain))
  {
    var links, t := LinksOf(chain), Thinning(origin, root, chain);
    assert forall i :: 0 < i < |links| ==> TypeAfter(t, links[..i]) == TypeAfter(root, links[..i]);
    assert links[..0] == [];
  }

  /** A reloaded edge evaluates as the running one does, over every later celltype of the source
      and in every semantics, exactly when the chain has no conversion or its first one changed
      the celltype when it was loaded. */
  lemma ReloadMeansTheSameIff(origin: Celltype, graph: Graph, edge: Edge, target: NodePath, targetPath: Path)
    requires Registered(origin, edge) && StartsIn(graph, edge.chain)
    ensures var root := NodeCelltype(graph, edge.chain[0].source.path);
            (forall sem, c, later :: Alike(sem, c, later, edge, Reloaded(graph, edge.chain, target, targetPath)))
            <==> FirstConverts(root, LinksOf(edge.chain))
  {
    SameFirst(origin, NodeCelltype(graph, edge.chain[0].source.path), edge.chain);
    var t, handle := ThinFor(origin, graph, edge), HandleOf(LinksOf(edge.chain));
    var loaded := Reloaded(graph, edge.chain, target, targetPath);
    EvaluatedByHandle(COUNTING, Got(0), origin, origin, graph, edge, target, targetPath) by { CountingIsLawful(); }
    FirstConvertsTurns(t, LinksOf(edge.chain));
    hide Evaluated, Reloaded, Thin, HandleOf, FirstTurns, FirstConverts;
    if FirstTurns(t, handle) {
      forall sem, c, later ensures Alike(sem, c, later, edge, loaded) {
        if Lawful(sem) {
          EvaluatedByHandle(sem, c, origin, later, graph, edge, target, targetPath);
          ThinMeansAnywhere(sem, c, t, later, handle);
        }
      }
    } else {
      var later := DroppedFirstDiverges(origin, graph, edge, target, targetPath);
    }
  }

  // ----- while the chain is well-formed -----

  lemma SoundIsWellTyped(graph: Graph, chain: seq<Recipe>)
    requires SaveReload.Rooted(chain) && StartsIn(graph, chain) && !ChainDefect(graph, chain)
    ensures WellTyped(NodeCelltype(graph, chain[0].source.path), LinksOf(chain))
  {
    var root, links := NodeCelltype(graph, chain[0].source.path), LinksOf(chain);
    forall i | 0 <= i < |links| && links[i].path != []
      ensures links[i].celltype == Projected(TypeAfter(root, links[..i]), links[i].path) {
      assert !LinkDefect(graph, chain, i);
      assert i > 0 ==> links[..i][i - 1] == links[i - 1];
    }
  }

  /** A chain that begins with a conversion is as well-formed after a retyping as before. */
  lemma DefectStays(graph: Graph, later: Graph, chain: seq<Recipe>)
    requires SaveReload.Rooted(chain) && StartsIn(graph, chain) && chain[0].path == [] && later.Keys == graph.Keys
    ensures ChainDefect(later, chain) <==> ChainDefect(graph, chain)
  {
    assert forall i :: 0 <= i < |chain| ==> (LinkDefect(graph, chain, i) <==> LinkDefect(later, chain, i));
    hide LinkDefect;
    if ChainDefect(graph, chain) {
      var i :| 0 <= i < |chain| && LinkDefect(graph, chain, i);
      assert LinkDefect(later, chain, i);
    }
    if ChainDefect(later, chain) {
      var i :| 0 <= i < |chain| && LinkDefect(later, chain, i);
      assert LinkDefect(graph, chain, i);
    }
  }

  /** The retypings after which the edge is evaluated at all: no recorded link is ill-formed. */
  ghost predicate Usable(graph: Graph, later: Graph, chain: seq<Recipe>) {
    later.Keys == graph.Keys && !ChainDefect(later, chain)
  }

  lemma BeginsWithPath(sem: Semantics, c: Outcome, origin: Celltype, graph: Graph, later: Graph, edge: Edge,
      target: NodePath, targetPath: Path)
    requires Lawful(sem) && Registered(origin, edge) && StartsIn(graph, edge.chain) && SaveReload.Rooted(edge.chain)
    requires edge.chain[0].path != [] && Usable(graph, later, edge.chain)
    ensures Alike(sem, c, NodeCelltype(later, edge.chain[0].source.path), edge,
      Reloaded(graph, edge.chain, target, targetPath))
  {
    var chain := edge.chain;
    var root, now := NodeCelltype(graph, chain[0].source.path), NodeCelltype(later, chain[0].source.path);
    SoundIsWellTyped(later, chain);
    EvaluatedByHandle(sem, c, origin, now, graph, edge, target, targetPath);
    hide Evaluated, Reloaded, WellTyped, HandleOf, Thin, EvalHandle, ChainDefect;
    RebuiltIsThin(root, now, chain);
    RebuiltIsThin(root, origin, chain);
    ThinMeans(sem, c, now, HandleOf(LinksOf(chain)));
  }

  /** As long as no recorded link is ill-formed, a retyping tells a reloaded edge from the running
      one exactly when the chain begins with a conversion to the very celltype its source had when
      it was loaded. */
  lemma RetypingShowsIff(origin: Celltype, graph: Graph, edge: Edge, target: NodePath, targetPath: Path)
    requires Registered(origin, edge) && StartsIn(graph, edge.chain) && SaveReload.Rooted(edge.chain)
    ensures var path := edge.chain[0].source.path;
            var loaded := Reloaded(graph, edge.chain, target, targetPath);
            (forall sem, c, later: Graph :: Usable(graph, later, edge.chain) ==>
              Alike(sem, c, NodeCelltype(later, path), edge, loaded))
            <==>
            !(edge.chain[0].path == [] && edge.chain[0].celltype == NodeCelltype(graph, path)
              && !ChainDefect(graph, edge.chain))
  {
    var chain, path := edge.chain, edge.chain[0].source.path;
    if chain[0].path == [] && chain[0].celltype == NodeCelltype(graph, path) && !ChainDefect(graph, chain) {
      hide *;
      RetypingShows(origin, graph, edge, target, targetPath);
    } else {
      hide *;
      hide NodeCelltype;
      RetypingHides(origin, graph, edge, target, targetPath);
    }
  }

  lemma RetypingHides(origin: Celltype, graph: Graph, edge: Edge, target: NodePath, targetPath: Path)
    requires Registered(origin, edge) && StartsIn(graph, edge.chain) && SaveReload.Rooted(edge.chain)
    requires edge.chain[0].path == [] && edge.chain[0].celltype == NodeCelltype(graph, edge.chain[0].source.path) ==>
      ChainDefect(graph, edge.chain)
    ensures var path := edge.chain[0].source.path;
            forall sem, c, later: Graph :: Usable(graph, later, edge.chain) ==>
              Alike(sem, c, NodeCelltype(later, path), edge, Reloaded(graph, edge.chain, target, targetPath))
  {
    var chain, path := edge.chain, edge.chain[0].source.path;
    var loaded := Reloaded(graph, chain, target, targetPath);
    if chain[0].path == [] {
      FirstLinkConverts(NodeCelltype(graph, path), chain);
    }
    ReloadMeansTheSameIff(origin, graph, edge, target, targetPath);
    hide Evaluated, Reloaded, ChainDefect, Registered, FirstConverts;
    forall sem, c, later: Graph | Usable(graph, later, chain)
      ensures Alike(sem, c, NodeCelltype(later, path), edge, loaded) {
      if chain[0].path == [] {
        DefectStays(graph, later, chain);
      } else if Lawful(sem) {
        BeginsWithPath(sem, c, origin, graph, later, edge, target, targetPath);
      }
    }
  }

  lemma FirstLinkConverts(root: Celltype, chain: seq<Recipe>)
    requires chain != [] && chain[0].path == []
    ensures FirstConverts(root, LinksOf(chain)) <==> chain[0].celltype != root
  {
    var links := LinksOf(chain);
    assert links[..0] == [] && links[0].path == [];
  }

  lemma RetypingShows(origin: Celltype, graph: Graph, edge: Edge, target: NodePath, targetPath: Path)
    requires Registered(origin, edge) && StartsIn(graph, edge.chain) && SaveReload.Rooted(edge.chain)
    requires edge.chain[0].path == [] && edge.chain[0].celltype == NodeCelltype(graph, edge.chain[0].source.path)
    requires !ChainDefect(graph, edge.chain)
    ensures var path := edge.chain[0].source.path;
            exists sem, c, later: Graph ::
              Usable(graph, later, edge.chain)
                && !Alike(sem, c, NodeCelltype(later, path), edge, Reloaded(graph, edge.chain, target, targetPath))
  {
    var chain, path := edge.chain, edge.chain[0].source.path;
    var celltype := DroppedShows(origin, graph, edge, target, targetPath);
    var later := graph[path := Cell(celltype)];
    assert later.Keys == graph.Keys && NodeCelltype(later, path) == celltype;
    hide Evaluated, Reloaded, ChainDefect, Registered, Alike, NodeCelltype;
    DefectStays(graph, later, chain);
    assert Usable(graph, later, chain);
  }

  lemma DroppedShows(origin: Celltype, graph: Graph, edge: Edge, target: NodePath, targetPath: Path)
      returns (later: Celltype)
    requires Registered(origin, edge) && StartsIn(graph, edge.chain)
    requires edge.chain[0].path == [] && edge.chain[0].celltype == NodeCelltype(graph, edge.chain[0].source.path)
    ensures !Alike(COUNTING, Got(0), later, edge, Reloaded(graph, edge.chain, target, targetPath))
  {
    var t := Thinning(origin, NodeCelltype(graph, edge.chain[0].source.path), edge.chain);
    CountingIsLawful();
    EvaluatedByHandle(COUNTING, Got(0), origin, origin, graph, edge, target, targetPath);
    hide Evaluated, Reloaded, Registered, Alike;
    FirstLinkConverts(t, edge.chain);
    FirstConvertsTurns(t, LinksOf(edge.chain));
    later := DroppedFirstDiverges(origin, graph, edge, target, targetPath);
  }

  // ----- the evaluator's own test -----

  /** Before it evaluates an edge that reads a path without a conversion, the evaluator checks that
      the celltype recorded last is the one its source now projects to. */
  predicate Refused(root: Celltype, edge: Edge) {
    && edge.sourcePath != [] && !edge.converts && edge.chain != []
    && edge.chain[|edge.chain| - 1].celltype != Projected(root, edge.sourcePath)
  }

  /** The two edges fare differently in this test exactly when all conversions were dropped, of at
      least one, before a path whose recorded celltype is not the projected one. */
  lemma RefusalDiffersIff(origin: Celltype, graph: Graph, edge: Edge, target: NodePath, targetPath: Path,
      later: Celltype)
    requires Registered(origin, edge) && StartsIn(graph, edge.chain) && (edge.converts <==> edge.steps != [])
    ensures var loaded := Reloaded(graph, edge.chain, target, targetPath);
            Refused(later, edge) != Refused(later, loaded) <==>
            && edge.steps != [] && loaded.steps == [] && edge.sourcePath != []
            && edge.chain[|edge.chain| - 1].celltype != Projected(later, edge.sourcePath)
  {
    AnonymousLinksContent(origin, edge.sourcePath, edge.steps);
    ConversionsKept(NodeCelltype(graph, edge.chain[0].source.path), edge.chain);
    hide AnonymousLinks, ChainSteps, Projected;
  }

  // ----- one such edge -----

  const MIXED_GRAPH: Graph := map[["a"] := Cell(Mixed), ["b"] := Cell(Named("plain"))]
  const CHAIN := [Recipe(Node(["a"]), Mixed, [])]
  const EDGE := SaveReload.Edge(["a"], [], ["b"], [], true, [Step(0, Mixed)], CHAIN)

  lemma EdgeIsRegistered()
    ensures Registered(Mixed, EDGE) && StartsIn(MIXED_GRAPH, CHAIN)
    ensures Reloaded(MIXED_GRAPH, CHAIN, ["b"], []).steps == []
  {
    assert CHAIN[..0] == [] && ChainPath(CHAIN[..0]) == [] && ChainSteps(Mixed, CHAIN[..0]) == [];
    assert ChainPath(CHAIN) == [] && ChainSteps(Mixed, CHAIN) == [];
    var steps := [Step(0, Mixed)];
    assert steps[1..] == [] && SortSteps(steps[1..]) == [] && SortSteps(steps) == steps;
    var path: Path := [];
    assert path[0..0] == [] && path[0..] == [];
    assert LinksFrom(Mixed, path, 0, []) == [];
    assert LinksFrom(Mixed, path, 0, steps) == [] + ([Link(Mixed, [])] + []);
    assert LinksOf(CHAIN) == [Link(Mixed, [])];
  }

  /** A mixed cell bound through a conversion to mixed, saved by its symbol and reloaded, and then
      the source is retyped to bytes: the running edge converts once, the reloaded one never. */
  lemma RetypedEdgeDiverges()
    ensures !Collapses(MIXED_GRAPH, EDGE)
    ensures Evaluated(COUNTING, Got(0), Bytes, EDGE) == Got(1)
    ensures Evaluated(COUNTING, Got(0), Bytes, Reloaded(MIXED_GRAPH, CHAIN, ["b"], [])) == Got(0)
  {
    CountingIsLawful();
    EdgeIsRegistered();
    CountedHandles();
    assert Projected(Named("plain"), []) == Named("plain");
    assert Thinning(Mixed, Mixed, CHAIN) == Mixed && NodeCelltype(MIXED_GRAPH, ["a"]) == Mixed;
    hide Evaluated, Reloaded, Registered, EvalHandle, Thin, HandleOf, Projected, AnonymousLinks;
    EvaluatedByHandle(COUNTING, Got(0), Mixed, Bytes, MIXED_GRAPH, EDGE, ["b"], []);
  }

  lemma CountedHandles()
    ensures var handle := HandleOf(LinksOf(CHAIN));
            && EvalHandle(COUNTING, Got(0), Bytes, handle) == Got(1)
            && EvalHandle(COUNTING, Got(0), Bytes, Thin(Mixed, handle)) == Got(0)
  {
    var handle := HandleOf(LinksOf(CHAIN));
    assert LinksOf(CHAIN) == [Link(Mixed, [])];
    HandleOfOne(Link(Mixed, []));
    assert handle == [Turn(Mixed)] && handle[1..] == [];
    assert Thin(Mixed, handle) == [];
    var none: seq<HandleLink> := [];
    assert Changes(Mixed, none) == 0 && Changes(Bytes, none) == 0;
    assert Changes(Bytes, handle) == 1 + Changes(Mixed, handle[1..]);
    hide Thin, EvalHandle, Changes, HandleOf;
    CountingCounts(0, Bytes, handle);
    CountingCounts(0, Bytes, none);
  }
}
