/** A handle reads its links one component at a time, in the order they were written; a bound
    edge reads whole segments, with the conversions sorted by position. */
module Handles {
  import opened Wrappers
  import opened Recipes
  import opened Fusion

  datatype HandleLink = Take(component: Component) | Turn(celltype: Celltype)

  function Takes(path: Path): seq<HandleLink> {
    if path == [] then [] else [Take(path[0])] + Takes(path[1..])
  }

  function HandleFrom(path: Path, index: nat, steps: seq<Step>): seq<HandleLink>
    requires index <= |path|
    decreases |steps|
  {
    if steps == [] then Takes(path[index..])
    else
      var next := Clamp(steps[0].position, index, |path|);
      Takes(path[index..next]) + ([Turn(steps[0].celltype)] + HandleFrom(path, next, steps[1..]))
  }

  lemma RegroupHandle(a: seq<HandleLink>, b: seq<HandleLink>, c: seq<HandleLink>, d: seq<HandleLink>)
    ensures a + (b + (c + d)) == a + b + c + d
    ensures a + (b + (c + d)) == (a + b + c) + d
  {
  }

  /** The handle's links in syntax order. */
  method HandleLinks(path: Path, steps: seq<Step>) returns (links: seq<HandleLink>)
    ensures links == HandleFrom(path, 0, steps)
  {
    var index := 0;
    links := [];
    for i := 0 to |steps|
      invariant 0 <= index <= |path|
      invariant links + HandleFrom(path, index, steps[i..]) == HandleFrom(path, 0, steps)
    {
      assert steps[i..][1..] == steps[i + 1..];
      ghost var start, before := index, links;
      ghost var next := Clamp(steps[i].position, start, |path|);
      while index < Min(steps[i].position, |path|)
        invariant start <= index <= next
        invariant links + Takes(path[index..next]) == before + Takes(path[start..next])
      {
        assert path[index..next][1..] == path[index + 1..next];
        links := links + [Take(path[index])];
        index := index + 1;
      }
      assert index == next && path[index..next] == [];
      RegroupHandle(before, Takes(path[start..next]), [Turn(steps[i].celltype)],
        HandleFrom(path, index, steps[i + 1..]));
      links := links + [Turn(steps[i].celltype)];
    }
    links := links + Takes(path[index..]);
  }

  function HandleCelltype(t: Celltype, links: seq<HandleLink>): Celltype
    decreases |links|
  {
    if links == [] then t
    else HandleCelltype(if links[0].Take? then Member(t, links[0].component) else links[0].celltype, links[1..])
  }

  /** One Expression per component, and one per conversion that changes the celltype. */
  function EvalHandle(sem: Semantics, c: Outcome, t: Celltype, links: seq<HandleLink>): Outcome
    decreases |links|
  {
    if links == [] then c
    else if links[0].Take? then
      var next := Member(t, links[0].component);
      EvalHandle(sem, EvalExpression(sem, c, t, [links[0].component], next), next, links[1..])
    else if links[0].celltype != t then
      EvalHandle(sem, EvalExpression(sem, c, t, [], links[0].celltype), links[0].celltype, links[1..])
    else EvalHandle(sem, c, t, links[1..])
  }

  lemma {:induction false} EvalTakes(sem: Semantics, c: Outcome, t: Celltype, path: Path, rest: seq<HandleLink>)
    requires Lawful(sem)
    ensures EvalHandle(sem, c, t, Takes(path) + rest) ==
      EvalHandle(sem, Project(sem, c, t, path), Projected(t, path), rest)
    ensures HandleCelltype(t, Takes(path) + rest) == HandleCelltype(Projected(t, path), rest)
    decreases |path|
  {
    if path == [] {
      assert Takes(path) + rest == rest;
    } else {
      var links := Takes(path) + rest;
      assert links[0] == Take(path[0]) && links[1..] == Takes(path[1..]) + rest;
      assert [path[0]] + path[1..] == path && [path[0]][1..] == [];
      var d := Project(sem, c, t, [path[0]]);
      Unchanged(sem, d, Member(t, path[0]), Member(t, path[0]));
      ProjectConcat(sem, c, t, [path[0]], path[1..]);
      EvalTakes(sem, d, Member(t, path[0]), path[1..], rest);
    }
  }

  lemma EvalPathLinks(sem: Semantics, c: Outcome, t: Celltype, segment: Path)
    requires Lawful(sem)
    ensures EvalLinks(sem, c, t, PathLinks(t, segment)) == Project(sem, c, t, segment)
    ensures TypeAfter(t, PathLinks(t, segment)) == Projected(t, segment)
  {
    var links := PathLinks(t, segment);
    if |links| == 1 {
      assert links[..0] == [];
      Unchanged(sem, Project(sem, c, t, segment), Projected(t, segment), Projected(t, segment));
    } else if |links| == 2 {
      var first, rest := segment[..1], segment[1..];
      assert first + rest == segment && links[..1] == [links[0]] && [links[0]][..0] == [];
      ProjectConcat(sem, c, t, first, rest);
      ProjectedConcat(t, first, rest);
      Unchanged(sem, Project(sem, c, t, first), Projected(t, first), Projected(t, first));
      Unchanged(sem, Project(sem, c, t, segment), Projected(t, segment), Projected(t, segment));
    }
  }

  /** Over one list of steps the two chains denote the same composition, whatever its order. */
  lemma {:induction false} HandleMeansLinks(sem: Semantics, c: Outcome, t: Celltype, path: Path, index: nat,
      steps: seq<Step>)
    requires Lawful(sem) && index <= |path|
    ensures EvalHandle(sem, c, t, HandleFrom(path, index, steps)) ==
      EvalLinks(sem, c, t, LinksFrom(t, path, index, steps))
    ensures HandleCelltype(t, HandleFrom(path, index, steps)) == TypeAfter(t, LinksFrom(t, path, index, steps))
    decreases |steps|
  {
    if steps == [] {
      assert Takes(path[index..]) + [] == Takes(path[index..]);
      EvalTakes(sem, c, t, path[index..], []);
      EvalPathLinks(sem, c, t, path[index..]);
    } else {
      var u, next := steps[0].celltype, Clamp(steps[0].position, index, |path|);
      var segment := path[index..next];
      var handleRest, linksRest := HandleFrom(path, next, steps[1..]), LinksFrom(u, path, next, steps[1..]);
      var d, s := Project(sem, c, t, segment), Projected(t, segment);
      EvalTakes(sem, c, t, segment, [Turn(u)] + handleRest);
      assert ([Turn(u)] + handleRest)[1..] == handleRest;
      EvalPathLinks(sem, c, t, segment);
      EvalLinksConcat(sem, c, t, PathLinks(t, segment), [Link(u, [])] + linksRest);
      EvalLinksConcat(sem, d, s, [Link(u, [])], linksRest);
      Unchanged(sem, d, u, u);
      HandleMeansLinks(sem, Convert(sem, d, s, u), u, path, next, steps[1..]);
    }
  }

  /** A handle whose conversions were written in path order evaluates to what the fused runs
      of the edge made from it evaluate to, and has the same celltype. */
  lemma HandleMeansRuns(sem: Semantics, c: Outcome, t: Celltype, path: Path, steps: seq<Step>)
    requires Lawful(sem) && Sorted(steps)
    ensures var links := AnonymousLinks(t, path, steps);
            && EvalHandle(sem, c, t, HandleFrom(path, 0, steps)) == EvalRuns(sem, c, Runs(sem.preserving, t, links))
            && HandleCelltype(t, HandleFrom(path, 0, steps)) == TypeAfter(t, links)
  {
    SortOfSorted(steps);
    HandleMeansLinks(sem, c, t, path, 0, steps);
    RecipeFusionPreservesMeaning(sem, c, t, path, steps);
  }

  // ----- when the orders agree -----

  function Zip(positions: seq<int>, types: seq<Celltype>): seq<Step>
    requires |positions| == |types|
  {
    seq(|positions|, i requires 0 <= i < |positions| => Step(positions[i], types[i]))
  }

  function Turns(links: seq<HandleLink>): seq<Celltype> {
    if links == [] then []
    else if links[0].Turn? then [links[0].celltype] + Turns(links[1..]) else Turns(links[1..])
  }

  lemma {:induction false} TurnsAfterTakes(path: Path, rest: seq<HandleLink>)
    ensures Turns(Takes(path) + rest) == Turns(rest)
  {
    if path == [] {
      assert Takes(path) + rest == rest;
    } else {
      assert (Takes(path) + rest)[0] == Take(path[0]) && (Takes(path) + rest)[1..] == Takes(path[1..]) + rest;
      TurnsAfterTakes(path[1..], rest);
    }
  }

  lemma {:induction false} TurnsOfHandle(path: Path, index: nat, steps: seq<Step>)
    requires index <= |path|
    ensures Turns(HandleFrom(path, index, steps)) == CelltypesOf(steps)
    decreases |steps|
  {
    if steps == [] {
      assert Takes(path[index..]) + [] == Takes(path[index..]);
      TurnsAfterTakes(path[index..], []);
    } else {
      var next := Clamp(steps[0].position, index, |path|);
      var rest := HandleFrom(path, next, steps[1..]);
      TurnsAfterTakes(path[index..next], [Turn(steps[0].celltype)] + rest);
      assert ([Turn(steps[0].celltype)] + rest)[1..] == rest;
      TurnsOfHandle(path, next, steps[1..]);
      assert CelltypesOf(steps) == [steps[0].celltype] + CelltypesOf(steps[1..]);
    }
  }

  /** A celltype that tells one written position from another. */
  function Tag(i: nat): Celltype { Named(seq(i, _ => 'x')) }

  lemma TagsDiffer(i: nat, j: nat)
    requires Tag(i) == Tag(j)
    ensures i == j
  {
    assert |Tag(i).name| == i && |Tag(j).name| == j;
  }

  /** A handle's written order and an edge's sorted order spell the same chain for every choice
      of celltypes exactly when the conversions were written in path order. */
  lemma HandleOrderAgrees(path: Path, positions: seq<int>)
    ensures (forall types: seq<Celltype> :: |types| == |positions| ==>
               HandleFrom(path, 0, Zip(positions, types)) == HandleFrom(path, 0, SortSteps(Zip(positions, types))))
            <==> (forall i, j :: 0 <= i < j < |positions| ==> positions[i] <= positions[j])
  {
    if forall i, j :: 0 <= i < j < |positions| ==> positions[i] <= positions[j] {
      forall types: seq<Celltype> | |types| == |positions|
        ensures HandleFrom(path, 0, Zip(positions, types)) == HandleFrom(path, 0, SortSteps(Zip(positions, types)))
      {
        SortOfSorted(Zip(positions, types));
      }
    } else {
      var types := seq(|positions|, (i: nat) => Tag(i));
      if HandleFrom(path, 0, Zip(positions, types)) == HandleFrom(path, 0, SortSteps(Zip(positions, types))) {
        SameChainMeansSorted(path, positions, types);
        assert false;
      }
    }
  }

  lemma SameChainMeansSorted(path: Path, positions: seq<int>, types: seq<Celltype>)
    requires |types| == |positions| && forall i :: 0 <= i < |types| ==> types[i] == Tag(i)
    requires HandleFrom(path, 0, Zip(positions, types)) == HandleFrom(path, 0, SortSteps(Zip(positions, types)))
    ensures forall i, j :: 0 <= i < j < |positions| ==> positions[i] <= positions[j]
  {
    var steps := Zip(positions, types);
    var sorted := SortSteps(steps);
    TurnsOfHandle(path, 0, steps);
    TurnsOfHandle(path, 0, sorted);
    assert CelltypesOf(steps) == CelltypesOf(sorted);
    forall i | 0 <= i < |positions|
      ensures sorted[i].position == positions[i]
    {
      assert sorted[i] in sorted;
      var k :| 0 <= k < |steps| && steps[k] == sorted[i];
      assert CelltypesOf(sorted)[i] == sorted[i].celltype && CelltypesOf(steps)[i] == steps[i].celltype;
      TagsDiffer(k, i);
    }
  }
}
