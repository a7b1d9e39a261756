/** Greedy fusion gives the fewest Expressions.

    `Legal` describes, without reference to the fusing algorithm, which stretches of links
    are one Expression: a single link, or ordinary links whose conversions are only the last
    one and a checksum-preserving first one that a path follows. */
module FusionOptimal {
  import opened Wrappers
  import opened Recipes
  import opened Fusion

  function Before(source: Celltype, links: seq<Link>, j: nat): Celltype
    requires j <= |links|
  {
    if j == 0 then source else links[j - 1].celltype
  }

  predicate NoIdentity(source: Celltype, links: seq<Link>) {
    forall j :: 0 <= j < |links| && links[j].path == [] ==> links[j].celltype != Before(source, links, j)
  }

  predicate Ordinary(source: Celltype, links: seq<Link>, j: nat)
    requires j < |links|
  {
    !IsDeep(Before(source, links, j)) && !IsDeep(links[j].celltype)
  }

  predicate Legal(preserving: set<(Celltype, Celltype)>, source: Celltype, links: seq<Link>, a: nat, b: nat)
    requires a < b <= |links|
  {
    b - a >= 2 ==>
      && (forall j :: a <= j < b ==> Ordinary(source, links, j))
      && (forall j :: a < j < b - 1 ==> links[j].path != [])
      && (links[a].path == [] ==>
            (Before(source, links, a), links[a].celltype) in preserving && links[a + 1].path != [])
  }

  /** A stretch of a legal stretch is legal. */
  lemma LegalInside(preserving: set<(Celltype, Celltype)>, source: Celltype, links: seq<Link>, a: nat, b: nat,
      low: nat, high: nat)
    requires a <= low < high <= b <= |links| && Legal(preserving, source, links, a, b)
    ensures Legal(preserving, source, links, low, high)
  {
  }

  /** Every run is legal, and could not have taken in the link after it. */
  ghost predicate Greedy(preserving: set<(Celltype, Celltype)>, source: Celltype, links: seq<Link>, runs: seq<Run>) {
    runs == [] ||
    var init := runs[..|runs| - 1];
    && Greedy(preserving, source, links, init)
    && 0 <= Reach(init) < Reach(runs) <= |links|
    && Legal(preserving, source, links, Reach(init), Reach(runs))
    && (Reach(runs) < |links| ==> !Legal(preserving, source, links, Reach(init), Reach(runs) + 1))
  }

  lemma GreedySnoc(preserving: set<(Celltype, Celltype)>, source: Celltype, links: seq<Link>, runs: seq<Run>, run: Run)
    requires Greedy(preserving, source, links, runs) && 0 <= Reach(runs) <= run.last < |links|
    requires Legal(preserving, source, links, Reach(runs), run.last + 1)
    requires run.last + 1 < |links| ==> !Legal(preserving, source, links, Reach(runs), run.last + 2)
    ensures Greedy(preserving, source, links, runs + [run])
  {
    assert (runs + [run])[..|runs|] == runs;
  }

  lemma {:induction false} GreedyPrefix(preserving: set<(Celltype, Celltype)>, source: Celltype, links: seq<Link>,
      runs: seq<Run>, k: nat)
    requires Greedy(preserving, source, links, runs) && k <= |runs|
    ensures Greedy(preserving, source, links, runs[..k])
    decreases |runs| - k
  {
    if k == |runs| {
      assert runs[..k] == runs;
    } else {
      GreedyPrefix(preserving, source, links, runs, k + 1);
      assert runs[..k + 1][..k] == runs[..k];
    }
  }

  /** The open run covers a legal stretch that ends at the last link read. */
  ghost predicate Growing(preserving: set<(Celltype, Celltype)>, source: Celltype, links: seq<Link>, i: nat, f: Fuser)
    requires i <= |links|
  {
    var s := Reach(f.runs);
    && f.current == Before(source, links, i)
    && Greedy(preserving, source, links, f.runs)
    && (f.open.None? ==> s == i)
    && (f.open.Some? ==>
          var o := f.open.value;
          && 0 <= s < i && o.run.last == i - 1
          && Legal(preserving, source, links, s, i)
          && (forall j :: s <= j < i ==> Ordinary(source, links, j))
          && (o.endsInConversion <==> links[i - 1].path == [])
          && (o.run.path == [] <==> i == s + 1 && links[s].path == [])
          && (o.run.path == [] ==>
                !o.absorbed && o.run.input == Before(source, links, s) && o.run.celltype == links[s].celltype))
  }

  /** Closing the open run when the next link cannot join it leaves a greedy list. */
  lemma CloseIsGreedy(preserving: set<(Celltype, Celltype)>, source: Celltype, links: seq<Link>, i: nat, f: Fuser)
    requires i < |links| && NoIdentity(source, links) && Growing(preserving, source, links, i, f)
    requires f.open.Some? ==> !Ordinary(source, links, i) || !Joins(preserving, f, links[i])
    ensures Greedy(preserving, source, links, Closed(f)) && Reach(Closed(f)) == i
  {
    if f.open.Some? {
      var s := Reach(f.runs);
      if Ordinary(source, links, i) {
        assert links[i - 1].path == [];
        assert links[i].path == [] ==> links[i].celltype != f.current;
        if i == s + 1 {
          assert links[s].celltype != Before(source, links, s);
        }
      }
      assert !Legal(preserving, source, links, s, i + 1);
      GreedySnoc(preserving, source, links, f.runs, f.open.value.run);
    }
  }

  lemma RestartShape(preserving: set<(Celltype, Celltype)>, source: Celltype, links: seq<Link>, i: nat, f: Fuser)
    requires i < |links| && f.current == Before(source, links, i)
    requires f.open.Some? ==> !Ordinary(source, links, i) || !Joins(preserving, f, links[i])
    ensures var alone := Run(f.current, links[i].path, links[i].celltype, i);
            FuseStep(preserving, f, i, links[i]) ==
              if Ordinary(source, links, i) then
                Fuser(Closed(f), Some(OpenRun(alone, links[i].path == [], false)), links[i].celltype)
              else Fuser(Closed(f) + [alone], None, links[i].celltype)
  {
  }

  /** A link below or above a deep celltype is a run by itself. */
  lemma AloneGrows(preserving: set<(Celltype, Celltype)>, source: Celltype, links: seq<Link>, i: nat, runs: seq<Run>)
    requires i < |links| && Greedy(preserving, source, links, runs) && Reach(runs) == i && !Ordinary(source, links, i)
    ensures var alone := Run(Before(source, links, i), links[i].path, links[i].celltype, i);
            Growing(preserving, source, links, i + 1, Fuser(runs + [alone], None, links[i].celltype))
  {
    var alone := Run(Before(source, links, i), links[i].path, links[i].celltype, i);
    assert Legal(preserving, source, links, i, i + 1);
    assert i + 1 < |links| ==> !Legal(preserving, source, links, i, i + 2);
    assert (runs + [alone])[|runs|] == alone;
    hide Greedy, Legal, Ordinary;
    GreedySnoc(preserving, source, links, runs, alone);
  }

  /** An ordinary link begins a run, with nothing absorbed yet. */
  lemma RestartGrows(preserving: set<(Celltype, Celltype)>, source: Celltype, links: seq<Link>, i: nat, runs: seq<Run>)
    requires i < |links| && Greedy(preserving, source, links, runs) && Reach(runs) == i && Ordinary(source, links, i)
    ensures var alone := Run(Before(source, links, i), links[i].path, links[i].celltype, i);
            Growing(preserving, source, links, i + 1,
              Fuser(runs, Some(OpenRun(alone, links[i].path == [], false)), links[i].celltype))
  {
    assert Legal(preserving, source, links, i, i + 1);
    hide Greedy, Legal, Ordinary;
  }

  lemma JoinGrows(preserving: set<(Celltype, Celltype)>, source: Celltype, links: seq<Link>, i: nat, f: Fuser, g: Fuser)
    requires i < |links| && NoIdentity(source, links) && Growing(preserving, source, links, i, f)
    requires f.open.Some? && Ordinary(source, links, i) && Joins(preserving, f, links[i])
    requires g == FuseStep(preserving, f, i, links[i])
    ensures Growing(preserving, source, links, i + 1, g)
  {
    var s, o := Reach(f.runs), f.open.value;
    assert g.runs == f.runs && g.open.Some?;
    assert links[i].path == [] ==> links[i].celltype != f.current;
    if o.endsInConversion {
      assert i == s + 1 && links[s].celltype != Before(source, links, s);
    }
    assert Legal(preserving, source, links, s, i + 1) by {
      forall j | s < j < i ensures links[j].path != [] {
        if j == i - 1 {
          assert !o.endsInConversion;
        }
      }
    }
  }

  lemma GrowingStep(preserving: set<(Celltype, Celltype)>, source: Celltype, links: seq<Link>, i: nat, f: Fuser,
      g: Fuser)
    requires i < |links| && NoIdentity(source, links) && Growing(preserving, source, links, i, f)
    requires g == FuseStep(preserving, f, i, links[i])
    ensures Growing(preserving, source, links, i + 1, g)
  {
    if f.open.Some? && Ordinary(source, links, i) && Joins(preserving, f, links[i]) {
      JoinGrows(preserving, source, links, i, f, g);
    } else {
      CloseIsGreedy(preserving, source, links, i, f);
      RestartShape(preserving, source, links, i, f);
      assert f.current == Before(source, links, i);
      hide *;
      if Ordinary(source, links, i) {
        RestartGrows(preserving, source, links, i, Closed(f));
      } else {
        AloneGrows(preserving, source, links, i, Closed(f));
      }
    }
  }

  lemma {:induction false} FuseGrows(preserving: set<(Celltype, Celltype)>, source: Celltype, links: seq<Link>, i: nat)
    requires i <= |links| && NoIdentity(source, links)
    ensures Growing(preserving, source, links, i, Fuse(preserving, source, links[..i]))
  {
    if i > 0 {
      FuseGrows(preserving, source, links, i - 1);
      assert links[..i][..i - 1] == links[..i - 1];
      GrowingStep(preserving, source, links, i - 1, Fuse(preserving, source, links[..i - 1]),
        Fuse(preserving, source, links[..i]));
    }
  }

  lemma RunsAreGreedy(preserving: set<(Celltype, Celltype)>, source: Celltype, links: seq<Link>)
    requires NoIdentity(source, links)
    ensures Greedy(preserving, source, links, Runs(preserving, source, links))
    ensures Reach(Runs(preserving, source, links)) == |links|
  {
    assert links[..|links|] == links;
    FuseGrows(preserving, source, links, |links|);
    var f := Fuse(preserving, source, links);
    if f.open.Some? {
      GreedySnoc(preserving, source, links, f.runs, f.open.value.run);
    }
  }

  // ----- any other way to cut the links -----

  function End(bounds: seq<nat>): nat {
    if bounds == [] then 0 else bounds[|bounds| - 1]
  }

  /** `bounds` are the ends of consecutive legal stretches, from the first link on. */
  ghost predicate Segmentation(preserving: set<(Celltype, Celltype)>, source: Celltype, links: seq<Link>,
      bounds: seq<nat>) {
    bounds == [] ||
    var init := bounds[..|bounds| - 1];
    && Segmentation(preserving, source, links, init)
    && End(init) < End(bounds) <= |links|
    && Legal(preserving, source, links, End(init), End(bounds))
  }

  /** After as many pieces, the greedy runs have covered at least as much. */
  lemma {:induction false} GreedyStaysAhead(preserving: set<(Celltype, Celltype)>, source: Celltype, links: seq<Link>,
      runs: seq<Run>, bounds: seq<nat>)
    requires Greedy(preserving, source, links, runs) && Segmentation(preserving, source, links, bounds)
    requires |bounds| == |runs|
    ensures End(bounds) <= Reach(runs)
    decreases |runs|
  {
    if runs != [] {
      var fewer, shorter := runs[..|runs| - 1], bounds[..|bounds| - 1];
      GreedyStaysAhead(preserving, source, links, fewer, shorter);
      if Reach(runs) < End(bounds) {
        LegalInside(preserving, source, links, End(shorter), End(bounds), Reach(fewer), Reach(runs) + 1);
      }
    }
  }

  function Ends(runs: seq<Run>): seq<int> {
    seq(|runs|, k requires 0 <= k < |runs| => runs[k].last + 1)
  }

  lemma EndsSnoc(runs: seq<Run>)
    requires runs != []
    ensures Ends(runs) == Ends(runs[..|runs| - 1]) + [Reach(runs)]
  {
  }

  lemma SegmentationSnoc(preserving: set<(Celltype, Celltype)>, source: Celltype, links: seq<Link>, bounds: seq<nat>,
      end: nat)
    requires Segmentation(preserving, source, links, bounds) && End(bounds) < end <= |links|
    requires Legal(preserving, source, links, End(bounds), end)
    ensures Segmentation(preserving, source, links, bounds + [end]) && End(bounds + [end]) == end
  {
    assert (bounds + [end])[..|bounds|] == bounds;
    hide Legal;
  }

  lemma {:induction false} GreedyIsSegmentation(preserving: set<(Celltype, Celltype)>, source: Celltype,
      links: seq<Link>, runs: seq<Run>) returns (bounds: seq<nat>)
    requires Greedy(preserving, source, links, runs)
    ensures bounds == Ends(runs) && Segmentation(preserving, source, links, bounds) && End(bounds) == Reach(runs)
    decreases |runs|
  {
    if runs == [] {
      bounds := [];
    } else {
      var fewer := runs[..|runs| - 1];
      assert Greedy(preserving, source, links, fewer) && 0 <= Reach(fewer) < Reach(runs) <= |links|;
      assert Legal(preserving, source, links, Reach(fewer), Reach(runs));
      EndsSnoc(runs);
      hide *;
      var init := GreedyIsSegmentation(preserving, source, links, fewer);
      SegmentationSnoc(preserving, source, links, init, Reach(runs));
      bounds := init + [Reach(runs)];
    }
  }

  /** No way of cutting the links into legal stretches uses fewer pieces than fusion does,
      fusion is itself such a cutting, and no two neighbouring runs could be one Expression. */
  lemma GreedyFusionIsOptimal(preserving: set<(Celltype, Celltype)>, source: Celltype, links: seq<Link>)
    requires NoIdentity(source, links)
    ensures var runs := Runs(preserving, source, links);
            && (exists mine: seq<nat> :: |mine| == |runs| && Segmentation(preserving, source, links, mine)
                  && End(mine) == |links|)
            && (forall bounds: seq<nat> ::
                  Segmentation(preserving, source, links, bounds) && End(bounds) == |links| ==> |runs| <= |bounds|)
            && (forall k :: 0 <= k < |runs| - 1 ==> KeptApart(preserving, source, links, runs, k))
  {
    var runs := Runs(preserving, source, links);
    RunsAreGreedy(preserving, source, links);
    var mine := GreedyIsSegmentation(preserving, source, links, runs);
    forall bounds: seq<nat> | Segmentation(preserving, source, links, bounds) && End(bounds) == |links|
      ensures |runs| <= |bounds|
    {
      if |bounds| < |runs| {
        GreedyPrefix(preserving, source, links, runs, |bounds| + 1);
        GreedyPrefix(preserving, source, links, runs, |bounds|);
        assert runs[..|bounds| + 1][..|bounds|] == runs[..|bounds|];
        GreedyStaysAhead(preserving, source, links, runs[..|bounds|], bounds);
      }
    }
    forall k | 0 <= k < |runs| - 1
      ensures KeptApart(preserving, source, links, runs, k)
    {
      NeighboursStayApart(preserving, source, links, runs, k);
    }
  }

  /** The links of runs `k` and `k + 1` together are not one legal stretch. */
  ghost predicate KeptApart(preserving: set<(Celltype, Celltype)>, source: Celltype, links: seq<Link>, runs: seq<Run>,
      k: nat)
    requires k + 2 <= |runs|
  {
    && 0 <= Reach(runs[..k]) < Reach(runs[..k + 2]) <= |links|
    && !Legal(preserving, source, links, Reach(runs[..k]), Reach(runs[..k + 2]))
  }

  lemma NeighboursStayApart(preserving: set<(Celltype, Celltype)>, source: Celltype, links: seq<Link>, runs: seq<Run>,
      k: nat)
    requires Greedy(preserving, source, links, runs) && k + 2 <= |runs|
    ensures KeptApart(preserving, source, links, runs, k)
  {
    GreedyPrefix(preserving, source, links, runs, k + 1);
    GreedyPrefix(preserving, source, links, runs, k + 2);
    assert runs[..k + 1][..k] == runs[..k] && runs[..k + 2][..k + 1] == runs[..k + 1];
    var a, b, c := Reach(runs[..k]), Reach(runs[..k + 1]), Reach(runs[..k + 2]);
    if Legal(preserving, source, links, a, c) {
      LegalInside(preserving, source, links, a, c, a, b + 1);
    }
  }

  /** With an identity conversion the greedy choice can lose: the identity opens a run of its
      own, although evaluating the real conversion alone means the same. */
  lemma IdentityCostsARun()
    ensures var links := [Link(Mixed, []), Link(Bytes, [])];
            && !NoIdentity(Mixed, links)
            && |Runs({}, Mixed, links)| == 2 && |Runs({}, Mixed, links[1..])| == 1
            && forall sem: Semantics, c: Outcome :: Lawful(sem) ==>
                 EvalLinks(sem, c, Mixed, links) == EvalLinks(sem, c, Mixed, links[1..])
  {
    var links := [Link(Mixed, []), Link(Bytes, [])];
    assert links[..1] == [links[0]] && [links[0]][..0] == [] && links[1..] == [links[1]] && [links[1]][..0] == [];
    assert Before(Mixed, links, 0) == Mixed;
    assert Fuse({}, Mixed, [links[0]]) == FuseStep({}, Fuser([], None, Mixed), 0, links[0]);
    assert Fuse({}, Mixed, [links[1]]) == FuseStep({}, Fuser([], None, Mixed), 0, links[1]);
    forall sem: Semantics, c: Outcome | Lawful(sem)
      ensures EvalLinks(sem, c, Mixed, links) == EvalLinks(sem, c, Mixed, links[1..])
    {
      Unchanged(sem, c, Mixed, Mixed);
      assert EvalLinks(sem, c, Mixed, [links[0]]) == EvalExpression(sem, c, Mixed, [], Mixed);
      assert EvalLinks(sem, c, Mixed, [links[1]]) == EvalExpression(sem, c, Mixed, [], Bytes);
    }
  }
}
