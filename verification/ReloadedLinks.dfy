/** Which recorded link an evaluated link of a reloaded edge is. The recorded chain has the
    conversions that the reload dropped; the evaluated links have not. */
module ReloadedLinks {
  import opened Recipes
  import opened Symbols
  import opened SaveReload
  import opened ReloadMeaning
  import opened RetypedReload
  import opened RecordedLinks

  // ----- the steps of a link list -----

  /** The conversions of a link list, each at the end of the path before it. */
  function StepsOf(links: seq<Link>, offset: nat): seq<Step> {
    if links == [] then []
    else if links[0].path != [] then StepsOf(links[1..], offset + |links[0].path|)
    else [Step(offset, links[0].celltype)] + StepsOf(links[1..], offset)
  }

  /** The same without those that change nothing. */
  function ThinSteps(t: Celltype, links: seq<Link>, offset: nat): seq<Step>
    decreases |links|
  {
    if links == [] then []
    else if links[0].path != [] then ThinSteps(links[0].celltype, links[1..], offset + |links[0].path|)
    else
      (if links[0].celltype != t then [Step(offset, links[0].celltype)] else [])
        + ThinSteps(links[0].celltype, links[1..], offset)
  }

  lemma {:induction false} StepsOfLast(links: seq<Link>, last: Link, offset: nat)
    ensures StepsOf(links + [last], offset) ==
            StepsOf(links, offset) + if last.path == [] then [Step(offset + |ConcatPaths(links)|, last.celltype)]
              else []
    decreases |links|
  {
    var all := links + [last];
    if links == [] {
      assert all == [last] && all[1..] == [] && StepsOf([], offset) == [] && StepsOf([], offset + |last.path|) == [];
    } else {
      assert all[0] == links[0] && all[1..] == links[1..] + [last];
      StepsOfLast(links[1..], last, offset + |links[0].path|);
    }
  }

  lemma {:induction false} ThinStepsLast(t: Celltype, links: seq<Link>, last: Link, offset: nat)
    ensures ThinSteps(t, links + [last], offset) ==
            ThinSteps(t, links, offset)
              + if last.path == [] && last.celltype != TypeAfter(t, links)
                then [Step(offset + |ConcatPaths(links)|, last.celltype)] else []
    decreases |links|
  {
    var all := links + [last];
    if links == [] {
      assert all == [last] && all[1..] == [];
      assert ThinSteps(t, [], offset) == [] && ThinSteps(last.celltype, [], offset + |last.path|) == [];
    } else {
      var first, rest := links[0], links[1..];
      assert all[0] == first && all[1..] == rest + [last];
      assert TypeAfter(t, links) == TypeAfter(first.celltype, rest);
      ThinStepsFirst(t, links, offset);
      ThinStepsFirst(t, all, offset);
      assert ConcatPaths(links) == first.path + ConcatPaths(rest);
      hide ThinSteps, ConcatPaths, TypeAfter;
      ThinStepsLast(first.celltype, rest, last, offset + |first.path|);
    }
  }

  lemma ThinStepsFirst(t: Celltype, links: seq<Link>, offset: nat)
    requires links != []
    ensures var first := links[0];
            ThinSteps(t, links, offset) ==
            (if first.path == [] && first.celltype != t then [Step(offset, first.celltype)] else [])
              + ThinSteps(first.celltype, links[1..], offset + |first.path|)
  {
  }

  /** The reloaded edge's steps are those of its chain's links that change something. */
  lemma {:induction false} ChainStepsAreThin(root: Celltype, chain: seq<Recipe>)
    ensures ChainSteps(root, chain) == ThinSteps(root, LinksOf(chain), 0)
  {
    if chain != [] {
      var init, last := chain[..|chain| - 1], chain[|chain| - 1];
      var link := Link(last.celltype, last.path);
      assert LinksOf(chain) == LinksOf(init) + [link];
      ChainStepsAreThin(root, init);
      ThinStepsLast(root, LinksOf(init), link, 0);
      assert last.path == [] ==> ChainPath(chain) == ChainPath(init);
      ChainPathOfLinks(init);
    }
  }

  // ----- what is dropped -----

  ghost predicate Idle(t: Celltype, links: seq<Link>) {
    forall i :: 0 <= i < |links| ==> links[i] == Link(t, [])
  }

  /** After the first conversion that changes nothing come only such conversions. */
  ghost predicate DroppedLast(t: Celltype, links: seq<Link>)
    decreases |links|
  {
    links == [] || Idle(t, links)
    || ((links[0].path != [] || links[0].celltype != t) && DroppedLast(links[0].celltype, links[1..]))
  }

  ghost predicate Pathless(links: seq<Link>) {
    forall i :: 0 <= i < |links| ==> links[i].path == []
  }

  lemma {:induction false} IdleHasNoSteps(t: Celltype, links: seq<Link>, offset: nat)
    requires Pathless(links)
    ensures ThinSteps(t, links, offset) == [] <==> Idle(t, links)
    decreases |links|
  {
    if links != [] {
      IdleHasNoSteps(links[0].celltype, links[1..], offset);
      assert Pathless(links[1..]);
      if links[0].celltype == t {
        assert forall i :: 0 < i < |links| ==> links[i] == links[1..][i - 1];
      }
    }
  }

  /** The first step that is kept, if no path comes before it, changes the celltype. */
  lemma {:induction false} KeptChanges(t: Celltype, links: seq<Link>, offset: nat)
    ensures forall s :: s in ThinSteps(t, links, offset) ==> s.position >= offset
    ensures var steps := ThinSteps(t, links, offset);
            steps != [] && steps[0].position == offset ==> steps[0].celltype != t
    decreases |links|
  {
    if links != [] {
      KeptChanges(links[0].celltype, links[1..], offset + |links[0].path|);
      var rest := ThinSteps(links[0].celltype, links[1..], offset + |links[0].path|);
      assert rest != [] ==> rest[0] in rest;
    }
  }

  /** Where the kept steps are those of a first part, and no path comes after it, all that was
      dropped is at the end. */
  lemma {:induction false} SameStepsDroppedLast(t: Celltype, links: seq<Link>, m: nat, offset: nat)
    requires m <= |links| && Pathless(links[m..])
    requires ThinSteps(t, links, offset) == StepsOf(links[..m], offset)
    ensures DroppedLast(t, links)
    decreases |links|
  {
    if m == 0 {
      assert links[0..] == links;
      IdleHasNoSteps(t, links, offset);
    } else {
      var first, rest := links[0], links[1..];
      assert links[..m][0] == first && links[..m][1..] == rest[..m - 1] && rest[m - 1..] == links[m..];
      if first.path != [] || first.celltype != t {
        if first.path == [] {
          var step := Step(offset, first.celltype);
          assert ([step] + ThinSteps(first.celltype, rest, offset))[1..] == ThinSteps(first.celltype, rest, offset);
          assert ([step] + StepsOf(rest[..m - 1], offset))[1..] == StepsOf(rest[..m - 1], offset);
        }
        SameStepsDroppedLast(first.celltype, rest, m - 1, offset + |first.path|);
      } else {
        KeptChanges(t, links, offset);
        assert false;
      }
    }
  }

  /** Without what was dropped at the end, nothing is missing. */
  lemma {:induction false} DroppedLastSteps(t: Celltype, links: seq<Link>, offset: nat) returns (m: nat)
    requires DroppedLast(t, links)
    ensures m <= |links| && Pathless(links[m..]) && ThinSteps(t, links, offset) == StepsOf(links[..m], offset)
    decreases |links|
  {
    if links == [] || Idle(t, links) {
      m := 0;
      IdleHasNoSteps(t, links, offset);
      assert links[..0] == [] && links[0..] == links;
    } else {
      var first, rest := links[0], links[1..];
      var k := DroppedLastSteps(first.celltype, rest, offset + |first.path|);
      m := k + 1;
      assert links[..m][0] == first && links[..m][1..] == rest[..k] && links[m..] == rest[k..];
    }
  }

  // ----- links made from their own steps -----

  function Clamped(path: Path, position: nat, steps: seq<Step>): seq<Step>
    requires position <= |path|
    decreases |steps|
  {
    if steps == [] then []
    else
      var p := Clamp(steps[0].position, position, |path|);
      [Step(p, steps[0].celltype)] + Clamped(path, p, steps[1..])
  }

  lemma {:induction false} ClampedMakesTheSame(t: Celltype, path: Path, position: nat, steps: seq<Step>)
    requires position <= |path|
    ensures LinksFrom(t, path, position, Clamped(path, position, steps)) == LinksFrom(t, path, position, steps)
    decreases |steps|
  {
    if steps != [] {
      var p := Clamp(steps[0].position, position, |path|);
      var clamped := Clamped(path, position, steps);
      assert clamped[0] == Step(p, steps[0].celltype) && clamped[1..] == Clamped(path, p, steps[1..]);
      hide PathLinks, LinksFrom, Clamped;
      FirstStep(t, path, position, steps);
      FirstStep(t, path, position, clamped);
      ClampedMakesTheSame(steps[0].celltype, path, p, steps[1..]);
    }
  }

  lemma StepsOfPath(t: Celltype, segment: Path, rest: seq<Link>, offset: nat)
    ensures StepsOf(PathLinks(t, segment) + rest, offset) == StepsOf(rest, offset + |segment|)
  {
    var links := PathLinks(t, segment);
    if |links| == 2 {
      assert (links + rest)[0] == links[0] && (links + rest)[1..] == [links[1]] + rest;
      assert ([links[1]] + rest)[0] == links[1] && ([links[1]] + rest)[1..] == rest;
    } else if |links| == 1 {
      assert (links + rest)[0] == links[0] && (links + rest)[1..] == rest;
    } else {
      assert links + rest == rest;
    }
  }

  lemma {:induction false} StepsOfMade(t: Celltype, path: Path, position: nat, steps: seq<Step>)
    requires position <= |path|
    ensures StepsOf(LinksFrom(t, path, position, steps), position) == Clamped(path, position, steps)
    decreases |steps|
  {
    if steps == [] {
      StepsOfPath(t, path[position..], [], position);
      assert PathLinks(t, path[position..]) + [] == PathLinks(t, path[position..]);
    } else {
      var p, u := Clamp(steps[0].position, position, |path|), steps[0].celltype;
      var rest := LinksFrom(u, path, p, steps[1..]);
      FirstStep(t, path, position, steps);
      StepsOfPath(t, path[position..p], [Link(u, [])] + rest, position);
      assert ([Link(u, [])] + rest)[0] == Link(u, []) && ([Link(u, [])] + rest)[1..] == rest;
      StepsOfMade(u, path, p, steps[1..]);
    }
  }

  lemma {:induction false} ClampedKeeps(path: Path, position: nat, steps: seq<Step>)
    requires position <= |path| && Sorted(steps) && Within(steps, |path|)
    requires steps != [] ==> position <= steps[0].position
    ensures Clamped(path, position, steps) == steps
    decreases |steps|
  {
    if steps != [] {
      assert Sorted(steps[1..]) && Within(steps[1..], |path|);
      ClampedKeeps(path, steps[0].position, steps[1..]);
    }
  }

  /** Conversions at the very end of a link list are those of the last steps. */
  lemma {:induction false} WithoutLastTurns(t: Celltype, path: Path, position: nat, steps: seq<Step>, m: nat)
    requires position <= |path| && m <= |LinksFrom(t, path, position, steps)|
    requires Pathless(LinksFrom(t, path, position, steps)[m..])
    ensures var all := LinksFrom(t, path, position, steps);
            |all| - m <= |steps| && LinksFrom(t, path, position, steps[..|steps| - (|all| - m)]) == all[..m]
    decreases |steps|, 1
  {
    var all := LinksFrom(t, path, position, steps);
    hide *;
    if m == |all| {
      assert steps[..|steps|] == steps && all[..m] == all;
    } else if steps == [] {
      OnlyPaths(t, path, position);
      FrontHasPaths(t, path[position..], all, m);
      assert false;
    } else {
      var p, u := Clamp(steps[0].position, position, |path|), steps[0].celltype;
      var front := PathLinks(t, path[position..p]);
      FirstStep(t, path, position, steps);
      PartsOf(all, front, [Link(u, [])] + LinksFrom(u, path, p, steps[1..]));
      FrontHasPaths(t, path[position..p], all, m);
      if m <= |front| {
        NoneKept(t, path, position, steps, all, m);
      } else {
        SomeKept(t, path, position, steps, m - |front| - 1);
      }
    }
  }

  lemma {:induction false} SomeKept(t: Celltype, path: Path, position: nat, steps: seq<Step>, k: nat)
    requires position <= |path| && steps != []
    requires var p := Clamp(steps[0].position, position, |path|);
             var m := |PathLinks(t, path[position..p])| + 1 + k;
             m <= |LinksFrom(t, path, position, steps)| && Pathless(LinksFrom(t, path, position, steps)[m..])
    ensures var all, p := LinksFrom(t, path, position, steps), Clamp(steps[0].position, position, |path|);
            var m := |PathLinks(t, path[position..p])| + 1 + k;
            |all| - m <= |steps| && LinksFrom(t, path, position, steps[..|steps| - (|all| - m)]) == all[..m]
    decreases |steps|, 0
  {
    var p, u := Clamp(steps[0].position, position, |path|), steps[0].celltype;
    var front, rest := PathLinks(t, path[position..p]), LinksFrom(u, path, p, steps[1..]);
    hide *;
    FirstStep(t, path, position, steps);
    PartsAfter(front, Link(u, []), rest, k);
    WithoutLastTurns(u, path, p, steps[1..], k);
    OneMoreTurn(t, path, position, steps, front, rest, k);
  }

  lemma PartsOf(all: seq<Link>, front: seq<Link>, rest: seq<Link>)
    requires all == front + rest
    ensures |front| <= |all| && all[..|front|] == front
  {
  }

  lemma PartsAfter(front: seq<Link>, turn: Link, rest: seq<Link>, k: nat)
    requires |front| + 1 + k <= |front + ([turn] + rest)|
    ensures k <= |rest| && (front + ([turn] + rest))[|front| + 1 + k..] == rest[k..]
    ensures |front + ([turn] + rest)| - (|front| + 1 + k) == |rest| - k
  {
  }

  lemma OnlyPaths(t: Celltype, path: Path, position: nat)
    requires position <= |path|
    ensures LinksFrom(t, path, position, []) == PathLinks(t, path[position..])
  {
  }

  lemma NoneKept(t: Celltype, path: Path, position: nat, steps: seq<Step>, all: seq<Link>, m: nat)
    requires position <= |path| && steps != [] && m <= |all| && Pathless(all[m..])
    requires var p, u := Clamp(steps[0].position, position, |path|), steps[0].celltype;
             && all == PathLinks(t, path[position..p]) + ([Link(u, [])] + LinksFrom(u, path, p, steps[1..]))
             && m == |PathLinks(t, path[position..p])|
    ensures |all| - m == |steps| && LinksFrom(t, path, position, steps[..0]) == all[..m]
  {
    var p, u := Clamp(steps[0].position, position, |path|), steps[0].celltype;
    var front := PathLinks(t, path[position..p]);
    hide LinksFrom, PathLinks;
    NothingAfter(u, path, p, steps[1..], all, front, m);
    NoStepsLeft(t, path, position, p, steps);
    assert all[..m] == front;
  }

  lemma NoStepsLeft(t: Celltype, path: Path, position: nat, p: nat, steps: seq<Step>)
    requires position <= p <= |path| && path[p..] == []
    ensures LinksFrom(t, path, position, steps[..0]) == PathLinks(t, path[position..p])
  {
    assert steps[..0] == [] && path[position..] == path[position..p];
  }

  lemma OneMoreTurn(t: Celltype, path: Path, position: nat, steps: seq<Step>, front: seq<Link>, rest: seq<Link>, k: nat)
    requires position <= |path| && steps != []
    requires var p := Clamp(steps[0].position, position, |path|);
             && front == PathLinks(t, path[position..p]) && rest == LinksFrom(steps[0].celltype, path, p, steps[1..])
             && k <= |rest| && |rest| - k <= |steps| - 1
             && LinksFrom(steps[0].celltype, path, p, steps[1..][..|steps| - 1 - (|rest| - k)]) == rest[..k]
    ensures var all := front + ([Link(steps[0].celltype, [])] + rest);
            var m := |front| + 1 + k;
            |all| - m <= |steps| && LinksFrom(t, path, position, steps[..|steps| - (|all| - m)]) == all[..m]
  {
    var all, n := front + ([Link(steps[0].celltype, [])] + rest), |steps| - (|rest| - k);
    var part := steps[..n];
    assert part[0] == steps[0] && part[1..] == steps[1..][..n - 1];
    hide LinksFrom, PathLinks;
    FirstStep(t, path, position, part);
    assert all[..|front| + 1 + k] == front + ([Link(steps[0].celltype, [])] + rest[..k]);
  }

  lemma FrontHasPaths(t: Celltype, segment: Path, all: seq<Link>, m: nat)
    requires m <= |all| && Pathless(all[m..]) && |PathLinks(t, segment)| <= |all|
    requires all[..|PathLinks(t, segment)|] == PathLinks(t, segment)
    ensures |PathLinks(t, segment)| <= m
  {
    var front := PathLinks(t, segment);
    assert forall i :: 0 <= i < |front| ==> front[i].path != [];
    assert forall i :: 0 <= i < |front| ==> all[..|front|][i] == all[i];
    assert m < |all| ==> all[m..][0] == all[m];
  }

  /** With no path after the first stretch, each later step makes one link. */
  lemma NothingAfter(u: Celltype, path: Path, p: nat, steps: seq<Step>, all: seq<Link>, front: seq<Link>, m: nat)
    requires p <= |path| && m == |front| && all == front + ([Link(u, [])] + LinksFrom(u, path, p, steps))
    requires Pathless(all[m..])
    ensures |LinksFrom(u, path, p, steps)| == |steps| && path[p..] == []
  {
    var rest := LinksFrom(u, path, p, steps);
    assert all[m..] == [Link(u, [])] + rest;
    forall i | 0 <= i < |rest| ensures rest[i].path == [] {
      assert rest[i] == all[m..][i + 1];
    }
    LinksFromContent(u, path, p, steps);
    PathlessContent(rest);
  }

  lemma {:induction false} PathlessContent(links: seq<Link>)
    ensures Pathless(links) ==> ConcatPaths(links) == [] && |Conversions(links)| == |links|
    ensures ConcatPaths(links) == [] ==> Pathless(links)
  {
    if links != [] {
      PathlessContent(links[1..]);
      if Pathless(links) {
        assert forall i :: 0 <= i < |links| - 1 ==> links[1..][i] == links[i + 1];
      }
      if ConcatPaths(links) == [] {
        forall i | 0 <= i < |links| ensures links[i].path == [] {
          if i > 0 {
            assert links[i] == links[1..][i - 1];
          }
        }
      }
    }
  }

  // ----- naming -----

  /** Links that are all named have the steps of the recorded ones they name. */
  lemma {:induction false} NamedSteps(recorded: seq<Link>, links: seq<Link>, n: nat)
    requires n <= |links| && forall i :: 0 <= i < n ==> EndsAlike(recorded, links, i)
    ensures n <= |recorded| && StepsOf(recorded[..n], 0) == StepsOf(links[..n], 0)
    ensures ConcatPaths(recorded[..n]) == ConcatPaths(links[..n])
    ensures Conversions(recorded[..n]) == Conversions(links[..n])
  {
    if n == 0 {
      assert recorded[..0] == [] == links[..0];
    } else {
      assert EndsAlike(recorded, links, n - 1);
      hide StepsOf, ConcatPaths, Conversions;
      NamedSteps(recorded, links, n - 1);
      assert recorded[..n] == recorded[..n - 1] + [recorded[n - 1]] && links[..n] == links[..n - 1] + [links[n - 1]];
      OneMoreNamed(recorded[..n - 1], links[..n - 1], recorded[n - 1], links[n - 1]);
    }
  }

  lemma OneMoreNamed(recorded: seq<Link>, links: seq<Link>, a: Link, b: Link)
    requires StepsOf(recorded, 0) == StepsOf(links, 0)
    requires ConcatPaths(recorded) == ConcatPaths(links) && Conversions(recorded) == Conversions(links)
    requires Conversions(recorded + [a]) == Conversions(links + [b])
    ensures StepsOf(recorded + [a], 0) == StepsOf(links + [b], 0)
  {
    hide StepsOf, ConcatPaths, Conversions;
    ConcatPathsConcat(recorded, [a]);
    ConcatPathsConcat(links, [b]);
    OneLinkContent(a);
    OneLinkContent(b);
    StepsOfLast(recorded, a, 0);
    StepsOfLast(links, b, 0);
    SameTurn(Conversions(links), a, b);
  }

  lemma SameTurn(before: seq<Celltype>, a: Link, b: Link)
    requires before + (if a.path == [] then [a.celltype] else []) == before
      + (if b.path == [] then [b.celltype] else [])
    ensures (a.path == [] <==> b.path == []) && (a.path == [] ==> a.celltype == b.celltype)
  {
    var x, y := if a.path == [] then [a.celltype] else [], if b.path == [] then [b.celltype] else [];
    assert (before + x)[|before|..] == x && (before + y)[|before|..] == y;
  }

  lemma NamedPrefix(recorded: seq<Link>, links: seq<Link>, m: nat)
    requires |links| <= m <= |recorded|
    ensures forall i :: 0 <= i < |links| ==> (EndsAlike(recorded[..m], links, i) <==> EndsAlike(recorded, links, i))
  {
    forall i | 0 <= i < |links| ensures EndsAlike(recorded[..m], links, i) <==> EndsAlike(recorded, links, i) {
      assert recorded[..m][..i + 1] == recorded[..i + 1];
    }
  }

  /** Each index names the recorded link of an evaluated one exactly if what was dropped is all at
      the end of the chain, and the chain does not begin with two path links over what is deep no
      more. */
  lemma ReloadedLinksIff(origin: Celltype, edge: Edge, graph: Graph, later: Graph, target: NodePath, targetPath: Path)
    requires Registered(origin, edge) && StartsIn(graph, edge.chain) && SaveReload.Rooted(edge.chain)
    requires Usable(graph, later, edge.chain)
    ensures var loaded := Reloaded(graph, edge.chain, target, targetPath);
            var root, now := NodeCelltype(graph, loaded.source), NodeCelltype(later, loaded.source);
            var recorded := LinksOf(edge.chain);
            AllNamed(recorded, AnonymousLinks(now, loaded.sourcePath, loaded.steps)) <==>
            DroppedLast(root, recorded) && !(TwoPathsFirst(recorded) && !IsDeep(now))
  {
    var loaded := Reloaded(graph, edge.chain, target, targetPath);
    var root, now := NodeCelltype(graph, loaded.source), NodeCelltype(later, loaded.source);
    var recorded, path, sorted := LinksOf(edge.chain), edge.sourcePath, SortSteps(edge.steps);
    FirstIsSound(later, edge.chain);
    assert recorded[0] == Link(edge.chain[0].celltype, edge.chain[0].path);
    ChainStepsInOrder(root, edge.chain);
    SortOfSorted(loaded.steps);
    ChainStepsAreThin(root, edge.chain);
    AnonymousLinksContent(origin, path, edge.steps);
    hide LinksFrom, ChainSteps, SortSteps, StepsOf, ThinSteps, DroppedLast, ChainDefect, LinksOf, EndsAlike;
    ReloadedPartIff(origin, now, root, path, sorted, recorded, loaded.steps);
  }

  lemma ReloadedPartIff(origin: Celltype, now: Celltype, root: Celltype, path: Path, steps: seq<Step>,
      recorded: seq<Link>, kept: seq<Step>)
    requires recorded == LinksFrom(origin, path, 0, steps) && recorded != [] && ConcatPaths(recorded) == path
    requires !LinkMiswired(now, recorded[0].celltype, recorded[0].path)
    requires kept == ThinSteps(root, recorded, 0) && Sorted(kept) && Within(kept, |path|)
    ensures AllNamed(recorded, LinksFrom(now, path, 0, kept)) <==>
            DroppedLast(root, recorded) && !(TwoPathsFirst(recorded) && !IsDeep(now))
  {
    hide LinksFrom, DroppedLast, ThinSteps, StepsOf, EndsAlike, TwoPathsFirst, LinkMiswired, ConcatPaths;
    if DroppedLast(root, recorded) {
      PartIff(origin, now, root, path, steps, recorded, kept);
    }
    if AllNamed(recorded, LinksFrom(now, path, 0, kept)) {
      NamedDroppedLast(now, root, path, recorded, kept);
    }
  }

  lemma NamedDroppedLast(now: Celltype, root: Celltype, path: Path, recorded: seq<Link>, kept: seq<Step>)
    requires ConcatPaths(recorded) == path
    requires kept == ThinSteps(root, recorded, 0) && Sorted(kept) && Within(kept, |path|)
    requires AllNamed(recorded, LinksFrom(now, path, 0, kept))
    ensures DroppedLast(root, recorded)
  {
    var links := LinksFrom(now, path, 0, kept);
    var m := |links|;
    ClampedKeeps(path, 0, kept);
    StepsOfMade(now, path, 0, kept);
    LinksFromContent(now, path, 0, kept);
    assert path[0..] == path && links[..m] == links;
    hide LinksFrom, DroppedLast, ThinSteps, StepsOf, EndsAlike, Clamped, ConcatPaths, Conversions, Sorted, Within;
    NamedSteps(recorded, links, m);
    NoPathLeft(recorded, m);
    SameStepsDroppedLast(root, recorded, m, 0);
  }

  lemma NoPathLeft(links: seq<Link>, m: nat)
    requires m <= |links| && ConcatPaths(links[..m]) == ConcatPaths(links)
    ensures Pathless(links[m..])
  {
    assert links[..m] + links[m..] == links;
    ConcatPathsConcat(links[..m], links[m..]);
    assert |ConcatPaths(links)| == |ConcatPaths(links)| + |ConcatPaths(links[m..])|;
    PathlessContent(links[m..]);
  }

  lemma PartIff(origin: Celltype, now: Celltype, root: Celltype, path: Path, steps: seq<Step>,
      recorded: seq<Link>, kept: seq<Step>)
    requires recorded == LinksFrom(origin, path, 0, steps) && recorded != [] && DroppedLast(root, recorded)
    requires !LinkMiswired(now, recorded[0].celltype, recorded[0].path)
    requires kept == ThinSteps(root, recorded, 0)
    ensures AllNamed(recorded, LinksFrom(now, path, 0, kept)) <==> !(TwoPathsFirst(recorded) && !IsDeep(now))
  {
    var links := LinksFrom(now, path, 0, kept);
    var m := DroppedLastSteps(root, recorded, 0);
    WithoutLastTurns(origin, path, 0, steps, m);
    var part := steps[..|steps| - (|recorded| - m)];
    StepsOfMade(origin, path, 0, part);
    ClampedMakesTheSame(now, path, 0, part);
    assert links == LinksFrom(now, path, 0, part);
    assert m > 0 ==> recorded[..m][0] == recorded[0];
    RetypedLinks(origin, now, path, part);
    assert TwoPathsFirst(recorded[..m]) <==> TwoPathsFirst(recorded) by {
      SameTwoPaths(recorded, m);
    }
    NoMoreLinks(origin, now, path, part);
    NamedPrefix(recorded, links, m);
    SomeLinks(now, path, part, origin);
    hide LinksFrom, EndsAlike, TwoPathsFirst, DroppedLast, ThinSteps, LinkMiswired;
    if links != [] {
      assert EndsAlike(recorded[..m], links, 0) <==> EndsAlike(recorded, links, 0);
    }
  }

  lemma SameTwoPaths(links: seq<Link>, m: nat)
    requires m <= |links| && Pathless(links[m..])
    ensures TwoPathsFirst(links[..m]) <==> TwoPathsFirst(links)
  {
    if |links| >= 2 && m < 2 {
      assert links[1] == links[m..][1 - m];
    }
  }

  lemma NoMoreLinks(origin: Celltype, now: Celltype, path: Path, steps: seq<Step>)
    requires var recorded := LinksFrom(origin, path, 0, steps);
             recorded != [] ==> !LinkMiswired(now, recorded[0].celltype, recorded[0].path)
    ensures |LinksFrom(now, path, 0, steps)| <= |LinksFrom(origin, path, 0, steps)|
  {
    FirstStretch(origin, path, steps);
    FirstStretch(now, path, steps);
    var segment := path[..Stop(path, steps)];
    assert segment != [] ==> LinksFrom(origin, path, 0, steps)[0] == PathLinks(origin, segment)[0];
    StretchAt(origin, now, segment);
  }

  lemma SomeLinks(now: Celltype, path: Path, steps: seq<Step>, origin: Celltype)
    ensures TwoPathsFirst(LinksFrom(origin, path, 0, steps)) ==> LinksFrom(now, path, 0, steps) != []
  {
    FirstStretch(origin, path, steps);
    FirstStretch(now, path, steps);
    TwoPathsAre(origin, path[..Stop(path, steps)], AfterStop(path, steps));
  }
}
