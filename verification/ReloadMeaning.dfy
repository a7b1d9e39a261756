/** A reloaded edge evaluates to what its recorded chain evaluates to.

    Loading drops the conversions of a chain that change nothing and re-derives the links from
    the path and the remaining conversions, so the links need not be the recorded ones. */
module ReloadMeaning {
  import opened Recipes
  import opened Fusion
  import opened Handles
  import opened Symbols
  import opened SaveReload
  import opened FusionOptimal

  lemma {:induction false} EvalHandleConcat(sem: Semantics, c: Outcome, t: Celltype, a: seq<HandleLink>,
      b: seq<HandleLink>)
    ensures EvalHandle(sem, c, t, a + b) == EvalHandle(sem, EvalHandle(sem, c, t, a), HandleCelltype(t, a), b)
    decreases |a|
  {
    if a == [] {
      assert a + b == b;
    } else {
      assert (a + b)[0] == a[0] && (a + b)[1..] == a[1..] + b;
      var next := if a[0].Take? then Member(t, a[0].component) else a[0].celltype;
      var d := if a[0].Take? then EvalExpression(sem, c, t, [a[0].component], next)
               else if a[0].celltype != t then EvalExpression(sem, c, t, [], next) else c;
      EvalHandleConcat(sem, d, next, a[1..], b);
    }
  }

  lemma {:induction false} TakesConcat(p: Path, q: Path)
    ensures Takes(p + q) == Takes(p) + Takes(q)
  {
    if p == [] {
      assert p + q == q;
    } else {
      assert (p + q)[1..] == p[1..] + q;
      TakesConcat(p[1..], q);
    }
  }

  ghost predicate Within(steps: seq<Step>, end: nat) {
    forall i :: 0 <= i < |steps| ==> 0 <= steps[i].position <= end
  }

  lemma {:induction false} HandleExtendsPath(p: Path, q: Path, index: nat, steps: seq<Step>)
    requires index <= |p| && Within(steps, |p|)
    ensures HandleFrom(p + q, index, steps) == HandleFrom(p, index, steps) + Takes(q)
    decreases |steps|
  {
    if steps == [] {
      assert (p + q)[index..] == p[index..] + q;
      TakesConcat(p[index..], q);
    } else {
      var next := Clamp(steps[0].position, index, |p|);
      assert next == Clamp(steps[0].position, index, |p + q|);
      assert (p + q)[index..next] == p[index..next];
      var head, turn, rest := Takes(p[index..next]), [Turn(steps[0].celltype)], HandleFrom(p, next, steps[1..]);
      assert HandleFrom(p, index, steps) == head + (turn + rest);
      assert HandleFrom(p + q, index, steps) == head + (turn + HandleFrom(p + q, next, steps[1..]));
      assert Within(steps[1..], |p|);
      hide *;
      HandleExtendsPath(p, q, next, steps[1..]);
      assert head + (turn + (rest + Takes(q))) == (head + (turn + rest)) + Takes(q);
    }
  }

  lemma {:induction false} HandleAddsTurn(p: Path, index: nat, steps: seq<Step>, t: Celltype)
    requires index <= |p|
    ensures HandleFrom(p, index, steps + [Step(|p|, t)]) == HandleFrom(p, index, steps) + [Turn(t)]
    decreases |steps|
  {
    var added := steps + [Step(|p|, t)];
    if steps == [] {
      assert added[1..] == [] && p[|p|..] == [];
      assert p[index..|p|] == p[index..];
    } else {
      assert added[0] == steps[0] && added[1..] == steps[1..] + [Step(|p|, t)];
      HandleAddsTurn(p, Clamp(steps[0].position, index, |p|), steps[1..], t);
    }
  }

  lemma {:induction false} ChainStepsInOrder(root: Celltype, chain: seq<Recipe>)
    ensures Within(ChainSteps(root, chain), |ChainPath(chain)|) && Sorted(ChainSteps(root, chain))
  {
    if chain != [] {
      ChainStepsInOrder(root, chain[..|chain| - 1]);
    }
  }

  lemma ThenPath(sem: Semantics, c: Outcome, root: Celltype, path: Path, steps: seq<Step>, more: Path)
    requires Lawful(sem) && Within(steps, |path|)
    ensures var before, after := HandleFrom(path, 0, steps), HandleFrom(path + more, 0, steps);
            var t := HandleCelltype(root, before);
            && EvalHandle(sem, c, root, after) == Project(sem, EvalHandle(sem, c, root, before), t, more)
            && HandleCelltype(root, after) == Projected(t, more)
  {
    var before := HandleFrom(path, 0, steps);
    HandleExtendsPath(path, more, 0, steps);
    assert Takes(more) + [] == Takes(more);
    EvalTakes(sem, EvalHandle(sem, c, root, before), HandleCelltype(root, before), more, []);
    EvalHandleConcat(sem, c, root, before, Takes(more));
    HandleCelltypeConcat(root, before, Takes(more));
  }

  lemma ThenTurn(sem: Semantics, c: Outcome, root: Celltype, path: Path, steps: seq<Step>, u: Celltype)
    requires Lawful(sem)
    ensures var before, after := HandleFrom(path, 0, steps), HandleFrom(path, 0, steps + [Step(|path|, u)]);
            && EvalHandle(sem, c, root, after) ==
               Convert(sem, EvalHandle(sem, c, root, before), HandleCelltype(root, before), u)
            && HandleCelltype(root, after) == u
  {
    var before := HandleFrom(path, 0, steps);
    HandleAddsTurn(path, 0, steps, u);
    assert [Turn(u)][1..] == [];
    EvalHandleConcat(sem, c, root, before, [Turn(u)]);
    HandleCelltypeConcat(root, before, [Turn(u)]);
    Unchanged(sem, EvalHandle(sem, c, root, before), u, u);
  }

  lemma LastRecipe(sem: Semantics, c: Outcome, root: Celltype, chain: seq<Recipe>)
    requires chain != [] && WellTyped(root, LinksOf(chain))
    ensures var init, last := chain[..|chain| - 1], chain[|chain| - 1];
            var t := TypeAfter(root, LinksOf(init));
            && WellTyped(root, LinksOf(init))
            && (last.path != [] ==> last.celltype == Projected(t, last.path))
            && EvalLinks(sem, c, root, LinksOf(chain)) ==
               EvalExpression(sem, EvalLinks(sem, c, root, LinksOf(init)), t, last.path, last.celltype)
            && TypeAfter(root, LinksOf(chain)) == last.celltype
  {
    var n, links := |chain| - 1, LinksOf(chain);
    assert links[..n] == LinksOf(chain[..n]) && links[..n + 1] == links;
    EvalLinksStep(sem, c, root, links, n);
  }

  /** Following a chain's rebuilt path and conversions does what its links do one by one. */
  lemma {:induction false} RebuiltHandleMeansChain(sem: Semantics, c: Outcome, root: Celltype, chain: seq<Recipe>)
    requires Lawful(sem) && WellTyped(root, LinksOf(chain))
    ensures var handle := HandleFrom(ChainPath(chain), 0, ChainSteps(root, chain));
            && EvalHandle(sem, c, root, handle) == EvalLinks(sem, c, root, LinksOf(chain))
            && HandleCelltype(root, handle) == TypeAfter(root, LinksOf(chain))
  {
    if chain != [] {
      var n := |chain| - 1;
      var init, last := chain[..n], chain[n];
      assert init + [last] == chain;
      hide *;
      LastRecipe(sem, c, root, chain);
      RebuiltHandleMeansChain(sem, c, root, init);
      ChainStepsInOrder(root, init);
      LastLink(sem, c, root, init, last);
    }
  }

  lemma LastLink(sem: Semantics, c: Outcome, root: Celltype, init: seq<Recipe>, last: Recipe)
    requires Lawful(sem) && Within(ChainSteps(root, init), |ChainPath(init)|)
    requires var handle := HandleFrom(ChainPath(init), 0, ChainSteps(root, init));
             HandleCelltype(root, handle) == TypeAfter(root, LinksOf(init))
    requires last.path != [] ==> last.celltype == Projected(TypeAfter(root, LinksOf(init)), last.path)
    ensures var chain := init + [last];
            var before := HandleFrom(ChainPath(init), 0, ChainSteps(root, init));
            var after := HandleFrom(ChainPath(chain), 0, ChainSteps(root, chain));
            && EvalHandle(sem, c, root, after) ==
               EvalExpression(sem, EvalHandle(sem, c, root, before), TypeAfter(root, LinksOf(init)), last.path,
                 last.celltype)
            && HandleCelltype(root, after) == last.celltype
  {
    var chain, path, steps := init + [last], ChainPath(init), ChainSteps(root, init);
    assert chain[..|chain| - 1] == init;
    var t := TypeAfter(root, LinksOf(init));
    var d := EvalHandle(sem, c, root, HandleFrom(path, 0, steps));
    assert steps + [] == steps && path + [] == path;
    if last.path != [] {
      ThenPath(sem, c, root, path, steps, last.path);
      Unchanged(sem, Project(sem, d, t, last.path), last.celltype, last.celltype);
    } else if last.celltype == t {
      Unchanged(sem, d, t, t);
    } else {
      ThenTurn(sem, c, root, path, steps, last.celltype);
    }
  }

  lemma {:induction false} HandleCelltypeConcat(t: Celltype, a: seq<HandleLink>, b: seq<HandleLink>)
    ensures HandleCelltype(t, a + b) == HandleCelltype(HandleCelltype(t, a), b)
    decreases |a|
  {
    if a == [] {
      assert a + b == b;
    } else {
      assert (a + b)[0] == a[0] && (a + b)[1..] == a[1..] + b;
      HandleCelltypeConcat(if a[0].Take? then Member(t, a[0].component) else a[0].celltype, a[1..], b);
    }
  }

  /** While no link of the chain is ill-formed over its source, the fused runs of the reloaded
      edge evaluate to what the fused runs of the recorded chain evaluate to. */
  lemma ReloadedEdgeMeansTheSame(sem: Semantics, c: Outcome, graph: Graph, chain: seq<Recipe>, target: NodePath,
      targetPath: Path)
    requires Lawful(sem) && StartsIn(graph, chain)
    requires WellTyped(NodeCelltype(graph, chain[0].source.path), LinksOf(chain))
    ensures var root := NodeCelltype(graph, chain[0].source.path);
            var edge := Reloaded(graph, chain, target, targetPath);
            EvalRuns(sem, c, Runs(sem.preserving, root, AnonymousLinks(root, edge.sourcePath, edge.steps))) ==
            EvalRuns(sem, c, Runs(sem.preserving, root, LinksOf(chain)))
  {
    var root := NodeCelltype(graph, chain[0].source.path);
    ChainStepsInOrder(root, chain);
    RebuiltHandleMeansChain(sem, c, root, chain);
    HandleMeansRuns(sem, c, root, ChainPath(chain), ChainSteps(root, chain));
    FusionPreservesMeaning(sem, c, root, LinksOf(chain));
  }

  lemma StepsSnoc(steps: seq<Step>, s: Step)
    ensures CelltypesOf(steps + [s]) == CelltypesOf(steps) + [s.celltype]
    ensures CelltypesOf(steps + []) == CelltypesOf(steps)
  {
    assert steps + [] == steps;
  }

  lemma {:induction false} ConversionsKept(root: Celltype, chain: seq<Recipe>)
    ensures |ChainSteps(root, chain)| <= |Conversions(LinksOf(chain))|
    ensures if NoIdentity(root, LinksOf(chain)) then CelltypesOf(ChainSteps(root, chain)) == Conversions(LinksOf(chain))
            else |ChainSteps(root, chain)| < |Conversions(LinksOf(chain))|
  {
    if chain != [] {
      var n := |chain| - 1;
      var init, last, links := chain[..n], chain[n], LinksOf(chain);
      ConversionsKept(root, init);
      assert links == LinksOf(init) + [Link(last.celltype, last.path)];
      ConcatPathsConcat(LinksOf(init), [Link(last.celltype, last.path)]);
      OneLinkContent(Link(last.celltype, last.path));
      IdentityAtTheEnd(root, LinksOf(init), Link(last.celltype, last.path));
      StepsSnoc(ChainSteps(root, init), Step(|ChainPath(chain)|, last.celltype));
    }
  }

  lemma IdentityAtTheEnd(root: Celltype, links: seq<Link>, last: Link)
    ensures NoIdentity(root, links + [last]) <==>
            NoIdentity(root, links)
              && !(last.path == [] && last.celltype == if links == [] then root else links[|links| - 1].celltype)
  {
    var all := links + [last];
    assert forall i :: 0 <= i < |links| ==> all[i] == links[i] && Before(root, all, i) == Before(root, links, i);
    assert all[|links|] == last;
    if NoIdentity(root, all) {
      forall i | 0 <= i < |links| && links[i].path == [] ensures links[i].celltype != Before(root, links, i) {
        assert all[i].path == [];
      }
      assert last.path == [] ==> all[|links|].celltype != Before(root, all, |links|);
    }
  }

  /** A reloaded edge has all the conversions of its recorded chain exactly when each of them
      changed the celltype at the time: those that did not are dropped. */
  lemma ReloadKeepsConversionsIff(graph: Graph, chain: seq<Recipe>, target: NodePath, targetPath: Path)
    requires StartsIn(graph, chain)
    ensures CelltypesOf(Reloaded(graph, chain, target, targetPath).steps) == Conversions(LinksOf(chain))
            <==> NoIdentity(NodeCelltype(graph, chain[0].source.path), LinksOf(chain))
  {
    ConversionsKept(NodeCelltype(graph, chain[0].source.path), chain);
  }
}
