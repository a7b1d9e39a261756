/** How a bound edge's recipe is evaluated: cut at its deep step if it has one, in fused runs after
    it, and with the values between held under the symbols of the links they end at. */
module CutRecipes {
  import opened Wrappers
  import opened Recipes
  import opened Fusion
  import opened Handles

  // ----- a cut recipe means the whole one -----

  function CutLinks(s: DeepSplit, path: Path): seq<Link>
    requires path != []
  {
    ConversionLinks(s.prefix) + [Link(s.member, path[..1])] + AnonymousLinks(s.member, s.restPath, s.restSteps)
  }

  /** A stretch over a deep celltype, taken at once or one component first. */
  lemma SplitStretch(sem: Semantics, c: Outcome, deep: Celltype, segment: Path, tail: seq<Link>)
    requires Lawful(sem) && segment != []
    ensures var member := Projected(deep, segment[..1]);
            && EvalLinks(sem, c, deep, PathLinks(deep, segment) + tail) ==
               EvalLinks(sem, c, deep, [Link(member, segment[..1])] + (PathLinks(member, segment[1..]) + tail))
  {
    var first, rest := segment[..1], segment[1..];
    var member := Projected(deep, first);
    assert first + rest == segment && [Link(member, first)][..0] == [];
    EvalPathLinks(sem, c, deep, segment);
    EvalLinksConcat(sem, c, deep, PathLinks(deep, segment), tail);
    EvalLinksConcat(sem, c, deep, [Link(member, first)], PathLinks(member, rest) + tail);
    var d := Project(sem, c, deep, first);
    Unchanged(sem, d, member, member);
    EvalPathLinks(sem, d, member, rest);
    EvalLinksConcat(sem, d, member, PathLinks(member, rest), tail);
    ProjectConcat(sem, c, deep, first, rest);
    ProjectedConcat(deep, first, rest);
    assert EvalLinks(sem, c, deep, [Link(member, first)]) == d by {
      assert EvalLinks(sem, c, deep, []) == c;
    }
  }

  /** Cutting a recipe at its deep step changes nothing that it evaluates to. */
  lemma CutMeansWhole(sem: Semantics, c: Outcome, celltype: Celltype, path: Path, steps: seq<Step>)
    requires Lawful(sem) && SplitDeepStep(celltype, path, steps).Some?
    ensures var s := SplitDeepStep(celltype, path, steps).value;
            EvalLinks(sem, c, celltype, AnonymousLinks(celltype, path, steps)) ==
            EvalLinks(sem, c, celltype, CutLinks(s, path))
  {
    var s, sorted := SplitDeepStep(celltype, path, steps).value, SortSteps(steps);
    var pre, beyond := UpTo(sorted), Beyond(sorted);
    SortedSplits(sorted);
    assert forall i :: 0 <= i < |beyond| ==> beyond[i] == sorted[|pre| + i];
    SortOfSorted(Shift(beyond));
    PrefixConversions(celltype, path, pre, beyond);
    DeepSplitShape(s.deep, path, beyond);
    var front := ConversionLinks(s.prefix);
    var end := if beyond == [] then |path| else Min(beyond[0].position, |path|);
    var tail := if beyond == [] then [] else
      [Link(beyond[0].celltype, [])] + LinksFrom(beyond[0].celltype, path, end, beyond[1..]);
    var step := [Link(s.member, path[..1])];
    assert AnonymousLinks(celltype, path, steps) == front + (PathLinks(s.deep, path[..end]) + tail);
    assert AnonymousLinks(s.member, s.restPath, s.restSteps) == PathLinks(s.member, path[..end][1..]) + tail;
    RegroupThree(front, step, PathLinks(s.member, path[..end][1..]) + tail);
    LastConversion(celltype, s.prefix);
    hide LinksFrom, PathLinks, EvalLinks, SplitDeepStep, UpTo, Beyond, Shift, SortSteps, AnonymousLinks;
    EvalLinksConcat(sem, c, celltype, front, PathLinks(s.deep, path[..end]) + tail);
    EvalLinksConcat(sem, c, celltype, front, step + (PathLinks(s.member, path[..end][1..]) + tail));
    SplitStretch(sem, EvalLinks(sem, c, celltype, front), s.deep, path[..end], tail);
  }

  lemma LastConversion(t: Celltype, types: seq<Celltype>)
    ensures TypeAfter(t, ConversionLinks(types)) == LastOr(t, types)
  {
  }

  /** Where no member stays deep, the cut has the very links of the whole recipe. */
  lemma CutIsWhole(celltype: Celltype, path: Path, steps: seq<Step>)
    requires SplitDeepStep(celltype, path, steps).Some? && !IsDeep(SplitDeepStep(celltype, path, steps).value.member)
    ensures AnonymousLinks(celltype, path, steps) == CutLinks(SplitDeepStep(celltype, path, steps).value, path)
  {
    DeepSplitAligns(celltype, path, steps);
  }

  // ----- the evaluator -----

  type Holds = map<nat, Checksum>

  /** What is held for a link is what the links up to it evaluate to. */
  ghost predicate Right(sem: Semantics, c: Outcome, t: Celltype, links: seq<Link>, holds: Holds) {
    forall i :: i in holds ==> Means(sem, c, t, links, i, holds[i])
  }

  ghost predicate Means(sem: Semantics, c: Outcome, t: Celltype, links: seq<Link>, i: nat, v: Checksum) {
    i < |links| && EvalLinks(sem, c, t, links[..i + 1]) == Got(v)
  }

  /** Evaluates the fused runs of a recipe; each but the last is held for the link it ends at. */
  method EvaluateRuns(sem: Semantics, c: Checksum, t: Celltype, path: Path, steps: seq<Step>)
    returns (r: Outcome, holds: Holds)
    requires Lawful(sem)
    ensures r == EvalLinks(sem, Got(c), t, AnonymousLinks(t, path, steps))
    ensures Right(sem, Got(c), t, AnonymousLinks(t, path, steps), holds)
  {
    ghost var links := AnonymousLinks(t, path, steps);
    NothingHeld(sem, Got(c), t, links);
    NoRuns(sem, Got(c));
    hide EvalLinks, EvalRuns, EvalExpression, AnonymousLinks, Runs, Right;
    RecipeFusionPreservesMeaning(sem, Got(c), t, path, steps);
    var made := ComputeAnonymousLinks(t, path, steps);
    var runs := FusibleRuns(sem.preserving, t, made);
    r, holds := Got(c), map[];
    for number := 0 to |runs|
      invariant r == EvalRuns(sem, Got(c), runs[..number]) && r.Got?
      invariant Right(sem, Got(c), t, links, holds)
    {
      var run := runs[number];
      EvalRunsSnoc(sem, Got(c), runs[..number], run);
      assert runs[..number] + [run] == runs[..number + 1];
      r := EvalExpression(sem, r, run.input, run.path, run.celltype);
      if r.Failed? {
        FailsOn(sem, Got(c), runs, number + 1);
        return;
      }
      if number < |runs| - 1 {
        OneMoreHeld(sem, Got(c), t, links, holds, run.last, r.checksum);
        holds := holds[run.last := r.checksum];
      }
    }
    assert runs[..|runs|] == runs;
  }

  lemma NothingHeld(sem: Semantics, c: Outcome, t: Celltype, links: seq<Link>)
    ensures Right(sem, c, t, links, map[])
  {
  }

  lemma NoRuns(sem: Semantics, c: Outcome)
    ensures EvalRuns(sem, c, []) == c
  {
  }

  lemma OneMoreHeld(sem: Semantics, c: Outcome, t: Celltype, links: seq<Link>, holds: Holds, i: int, v: Checksum)
    requires Right(sem, c, t, links, holds) && 0 <= i < |links| && EvalLinks(sem, c, t, links[..i + 1]) == Got(v)
    ensures Right(sem, c, t, links, holds[i := v])
  {
  }

  lemma FailedStays(sem: Semantics, input: Celltype, path: Path, output: Celltype)
    ensures EvalExpression(sem, Failed, input, path, output) == Failed
  {
  }

  lemma {:induction false} FailsOn(sem: Semantics, c: Outcome, runs: seq<Run>, i: nat)
    requires i <= |runs| && EvalRuns(sem, c, runs[..i]).Failed?
    ensures EvalRuns(sem, c, runs).Failed?
    decreases |runs| - i
  {
    hide *;
    if i == |runs| {
      assert runs[..i] == runs;
    } else {
      assert runs[..i] + [runs[i]] == runs[..i + 1];
      EvalRunsSnoc(sem, c, runs[..i], runs[i]);
      FailedStays(sem, runs[i].input, runs[i].path, runs[i].celltype);
      FailsOn(sem, c, runs, i + 1);
    }
  }

  lemma {:induction false} FailsOnLinks(sem: Semantics, c: Outcome, t: Celltype, links: seq<Link>, i: nat)
    requires i <= |links| && EvalLinks(sem, c, t, links[..i]).Failed?
    ensures EvalLinks(sem, c, t, links).Failed?
    decreases |links| - i
  {
    if i == |links| {
      assert links[..i] == links;
    } else {
      EvalLinksStep(sem, c, t, links, i);
      FailedStays(sem, TypeAfter(t, links[..i]), links[i].path, links[i].celltype);
      hide EvalLinks, EvalExpression;
      FailsOnLinks(sem, c, t, links, i + 1);
    }
  }

  /** Evaluates the conversions before a deep step, and the step, each on its own; each is held, the
      step unless it is the last link. */
  method EvaluateStep(sem: Semantics, c: Checksum, root: Celltype, path: Path, s: DeepSplit)
    returns (r: Outcome, holds: Holds)
    requires Lawful(sem) && path != [] && s.deep == LastOr(root, s.prefix) && s.member == Projected(s.deep, path[..1])
    ensures var links := ConversionLinks(s.prefix) + [Link(s.member, path[..1])];
            r == EvalLinks(sem, Got(c), root, links) && Right(sem, Got(c), root, links, holds)
  {
    ghost var links := ConversionLinks(s.prefix) + [Link(s.member, path[..1])];
    r, holds := Got(c), map[];
    var current := root;
    NothingHeld(sem, Got(c), root, links);
    assert links[..0] == [] && s.prefix[..|s.prefix|] == s.prefix;
    hide EvalLinks, EvalExpression, Right, Projected;
    NoLinks(sem, Got(c), root);
    for index := 0 to |s.prefix|
      invariant r == EvalLinks(sem, Got(c), root, links[..index]) && r.Got?
      invariant current == TypeAfter(root, links[..index]) == LastOr(root, s.prefix[..index])
      invariant Right(sem, Got(c), root, links, holds)
    {
      var converted := s.prefix[index];
      EvalLinksStep(sem, Got(c), root, links, index);
      Pathless(sem, r, current, converted);
      if converted != current {
        r := EvalExpression(sem, r, current, [], converted);
        if r.Failed? {
          FailsOnLinks(sem, Got(c), root, links, index + 1);
          return;
        }
      }
      OneMoreHeld(sem, Got(c), root, links, holds, index, r.checksum);
      holds := holds[index := r.checksum];
      current := converted;
    }
    EvalLinksStep(sem, Got(c), root, links, |s.prefix|);
    assert links[..|s.prefix| + 1] == links;
    r := EvalExpression(sem, r, s.deep, path[..1], s.member);
    if r.Got? && (s.restPath != [] || s.restSteps != []) {
      OneMoreHeld(sem, Got(c), root, links, holds, |s.prefix|, r.checksum);
      holds := holds[|s.prefix| := r.checksum];
    }
  }

  lemma NoLinks(sem: Semantics, c: Outcome, t: Celltype)
    ensures EvalLinks(sem, c, t, []) == c
  {
  }

  lemma Pathless(sem: Semantics, c: Outcome, t: Celltype, u: Celltype)
    requires Lawful(sem)
    ensures t == u ==> EvalExpression(sem, c, t, [], u) == c
  {
    if t == u {
      Unchanged(sem, c, t, u);
    }
  }

  /** What was held for links that come after `n` others. */
  function Moved(holds: Holds, n: nat): Holds {
    var keys: set<nat> := set i | i in holds :: n + i;
    map k | k in keys :: holds[k - n]
  }

  lemma MovedAt(holds: Holds, n: nat, k: nat)
    ensures k in Moved(holds, n) <==> k >= n && k - n in holds
    ensures k in Moved(holds, n) ==> Moved(holds, n)[k] == holds[k - n]
  {
    var keys: set<nat> := set i | i in holds :: n + i;
    assert k >= n && k - n in holds ==> n + (k - n) in keys;
  }

  lemma LaterHolds(sem: Semantics, c: Outcome, t: Celltype, front: seq<Link>, rest: seq<Link>, early: Holds,
      late: Holds)
    requires Right(sem, c, t, front, early)
    requires Right(sem, EvalLinks(sem, c, t, front), TypeAfter(t, front), rest, late)
    ensures Right(sem, c, t, front + rest, early + Moved(late, |front|))
  {
    hide *;
    MovedRight(sem, c, t, front, rest, late);
    EarlyHolds(sem, c, t, front, rest, early);
    BothRight(sem, c, t, front + rest, early, Moved(late, |front|));
  }

  lemma MovedRight(sem: Semantics, c: Outcome, t: Celltype, front: seq<Link>, rest: seq<Link>, late: Holds)
    requires Right(sem, EvalLinks(sem, c, t, front), TypeAfter(t, front), rest, late)
    ensures Right(sem, c, t, front + rest, Moved(late, |front|))
  {
    hide EvalLinks, TypeAfter, Moved, Means;
    forall k | k in Moved(late, |front|) ensures Means(sem, c, t, front + rest, k, Moved(late, |front|)[k]) {
      MovedHoldAt(sem, c, t, front, rest, late, k);
    }
  }

  lemma MovedHoldAt(sem: Semantics, c: Outcome, t: Celltype, front: seq<Link>, rest: seq<Link>, late: Holds, k: nat)
    requires Right(sem, EvalLinks(sem, c, t, front), TypeAfter(t, front), rest, late) && k in Moved(late, |front|)
    ensures Means(sem, c, t, front + rest, k, Moved(late, |front|)[k])
  {
    hide *;
    MovedAt(late, |front|, k);
    var i := k - |front|;
    HeldAt(sem, EvalLinks(sem, c, t, front), TypeAfter(t, front), rest, late, i);
    LateHold(sem, c, t, front, rest, i, late[i]);
    assert |front| + i == k;
  }

  lemma HeldAt(sem: Semantics, c: Outcome, t: Celltype, links: seq<Link>, holds: Holds, k: nat)
    requires Right(sem, c, t, links, holds) && k in holds
    ensures Means(sem, c, t, links, k, holds[k])
  {
  }

  lemma BothRight(sem: Semantics, c: Outcome, t: Celltype, links: seq<Link>, early: Holds, late: Holds)
    requires Right(sem, c, t, links, early) && Right(sem, c, t, links, late)
    ensures Right(sem, c, t, links, early + late)
  {
    hide Means;
  }

  lemma LateHold(sem: Semantics, c: Outcome, t: Celltype, front: seq<Link>, rest: seq<Link>, i: nat, v: Checksum)
    requires Means(sem, EvalLinks(sem, c, t, front), TypeAfter(t, front), rest, i, v)
    ensures Means(sem, c, t, front + rest, |front| + i, v)
  {
    hide EvalLinks, TypeAfter;
    assert (front + rest)[..|front| + i + 1] == front + rest[..i + 1];
    EvalLinksConcat(sem, c, t, front, rest[..i + 1]);
  }

  lemma EarlyHold(sem: Semantics, c: Outcome, t: Celltype, front: seq<Link>, rest: seq<Link>, i: nat, v: Checksum)
    requires Means(sem, c, t, front, i, v)
    ensures Means(sem, c, t, front + rest, i, v)
  {
    hide EvalLinks;
    assert (front + rest)[..i + 1] == front[..i + 1];
  }

  lemma PathAlone(sem: Semantics, c: Outcome, t: Celltype, path: Path)
    requires Lawful(sem)
    ensures EvalLinks(sem, c, t, AnonymousLinks(t, path, [])) == Project(sem, c, t, path)
  {
    assert path[0..] == path;
    EvalPathLinks(sem, c, t, path);
  }

  /** Evaluates what is left of a recipe: its runs if it converts, else one projection. */
  method EvaluateRest(sem: Semantics, c: Checksum, t: Celltype, path: Path, steps: seq<Step>)
    returns (r: Outcome, holds: Holds)
    requires Lawful(sem)
    ensures r == EvalLinks(sem, Got(c), t, AnonymousLinks(t, path, steps))
    ensures Right(sem, Got(c), t, AnonymousLinks(t, path, steps), holds)
  {
    if steps != [] {
      r, holds := EvaluateRuns(sem, c, t, path, steps);
      return;
    }
    PathAlone(sem, Got(c), t, path);
    r, holds := Got(c), map[];
    if path != [] {
      Unchanged(sem, Project(sem, Got(c), t, path), Projected(t, path), Projected(t, path));
      r := EvalExpression(sem, r, t, path, Projected(t, path));
    }
  }

  /** Evaluates an edge's recipe over its source's value. The outcome is that of all its links, one
      by one; and if the step, where it is cut, does not stay deep, what is held for a link is what
      the links up to it evaluate to. */
  method EvaluateSource(sem: Semantics, c: Checksum, root: Celltype, path: Path, steps: seq<Step>)
    returns (r: Outcome, holds: Holds)
    requires Lawful(sem)
    ensures r == EvalLinks(sem, Got(c), root, AnonymousLinks(root, path, steps))
    ensures (SplitDeepStep(root, path, steps).Some? ==> !IsDeep(SplitDeepStep(root, path, steps).value.member)) ==>
              Right(sem, Got(c), root, AnonymousLinks(root, path, steps), holds)
  {
    var deep := SplitDeepStep(root, path, steps);
    if deep.None? {
      r, holds := EvaluateRest(sem, c, root, path, steps);
      return;
    }
    var s := deep.value;
    ghost var front, rest := ConversionLinks(s.prefix) + [Link(s.member, path[..1])],
        AnonymousLinks(s.member, s.restPath, s.restSteps);
    SplitParts(root, path, steps);
    assert TypeAfter(root, front) == s.member;
    hide EvalLinks, AnonymousLinks, Right, SplitDeepStep, ConversionLinks, TypeAfter, Projected, LastOr;
    CutMeansWhole(sem, Got(c), root, path, steps);
    if !IsDeep(s.member) {
      CutIsWhole(root, path, steps);
    }
    r, holds := EvaluateStep(sem, c, root, path, s);
    EvalLinksConcat(sem, Got(c), root, front, rest);
    if r.Failed? {
      assert (front + rest)[..|front|] == front;
      FailsOnLinks(sem, Got(c), root, front + rest, |front|);
      EarlyHolds(sem, Got(c), root, front, rest, holds);
      return;
    }
    var late;
    r, late := EvaluateRest(sem, r.checksum, s.member, s.restPath, s.restSteps);
    LaterHolds(sem, Got(c), root, front, rest, holds, late);
    holds := holds + Moved(late, |s.prefix| + 1);
  }

  lemma SplitParts(celltype: Celltype, path: Path, steps: seq<Step>)
    requires SplitDeepStep(celltype, path, steps).Some?
    ensures var s := SplitDeepStep(celltype, path, steps).value;
            && path != [] && s.deep == LastOr(celltype, s.prefix) && s.member == Projected(s.deep, path[..1])
            && |ConversionLinks(s.prefix)| == |s.prefix|
  {
  }

  lemma EarlyHolds(sem: Semantics, c: Outcome, t: Celltype, front: seq<Link>, rest: seq<Link>, early: Holds)
    requires Right(sem, c, t, front, early)
    ensures Right(sem, c, t, front + rest, early)
  {
    hide EvalLinks, Means;
    forall k | k in early ensures Means(sem, c, t, front + rest, k, early[k]) {
      assert Means(sem, c, t, front, k, early[k]);
      EarlyHold(sem, c, t, front, rest, k, early[k]);
    }
  }
}
