/** Fusion: grouping the links of a recipe into Expressions, and what that means.

    `Semantics` is abstract: how one path component reads a checksum, how a conversion maps
    one, and which conversions leave the checksum as it is.  `Lawful` is all that is assumed. */
module Fusion {
  import opened Wrappers
  import opened Recipes

  /** What evaluating something over a checksum yields. */
  datatype Outcome = Failed | Got(checksum: Checksum)

  datatype Semantics = Semantics(
    item: (Checksum, Celltype, Component) -> Outcome,
    convert: (Checksum, Celltype, Celltype) -> Outcome,
    preserving: set<(Celltype, Celltype)>)

  /** Converting to the same celltype, and a preserving conversion, leave the checksum unchanged. */
  ghost predicate Lawful(sem: Semantics) {
    forall c, t, u :: t == u || (t, u) in sem.preserving ==> sem.convert(c, t, u) == Got(c)
  }

  function Project(sem: Semantics, c: Outcome, t: Celltype, path: Path): Outcome
    decreases |path|
  {
    if path == [] || c.Failed? then c
    else Project(sem, sem.item(c.checksum, t, path[0]), Member(t, path[0]), path[1..])
  }

  function Convert(sem: Semantics, c: Outcome, t: Celltype, u: Celltype): Outcome {
    if c.Failed? then c else sem.convert(c.checksum, t, u)
  }

  lemma Unchanged(sem: Semantics, c: Outcome, t: Celltype, u: Celltype)
    requires Lawful(sem) && (t == u || (t, u) in sem.preserving)
    ensures Convert(sem, c, t, u) == c
  {
    if c.Got? {
      assert sem.convert(c.checksum, t, u) == Got(c.checksum);
    }
  }

  /** One Expression: project `path` out of a `source` checksum, then convert the result to `target`. */
  function EvalExpression(sem: Semantics, c: Outcome, source: Celltype, path: Path, target: Celltype): Outcome {
    Convert(sem, Project(sem, c, source, path), Projected(source, path), target)
  }

  /** Path projection composes. */
  lemma {:induction false} ProjectConcat(sem: Semantics, c: Outcome, t: Celltype, p: Path, q: Path)
    ensures Project(sem, c, t, p + q) == Project(sem, Project(sem, c, t, p), Projected(t, p), q)
    decreases |p|
  {
    if p == [] {
      assert p + q == q;
    } else if c.Got? {
      assert (p + q)[1..] == p[1..] + q;
      ProjectConcat(sem, sem.item(c.checksum, t, p[0]), Member(t, p[0]), p[1..], q);
    }
  }

  /** Every link evaluated on its own, innermost first. */
  function EvalLinks(sem: Semantics, c: Outcome, source: Celltype, links: seq<Link>): Outcome {
    if links == [] then c
    else
      var init, last := links[..|links| - 1], links[|links| - 1];
      EvalExpression(sem, EvalLinks(sem, c, source, init), TypeAfter(source, init), last.path, last.celltype)
  }

  lemma EvalLinksStep(sem: Semantics, c: Outcome, source: Celltype, links: seq<Link>, i: nat)
    requires i < |links|
    ensures EvalLinks(sem, c, source, links[..i + 1]) ==
            EvalExpression(sem, EvalLinks(sem, c, source, links[..i]), TypeAfter(source, links[..i]), links[i].path,
              links[i].celltype)
    ensures TypeAfter(source, links[..i + 1]) == links[i].celltype
  {
    assert links[..i + 1][..i] == links[..i];
  }

  lemma {:induction false} EvalLinksConcat(sem: Semantics, c: Outcome, source: Celltype, a: seq<Link>, b: seq<Link>)
    ensures EvalLinks(sem, c, source, a + b) == EvalLinks(sem, EvalLinks(sem, c, source, a), TypeAfter(source, a), b)
    decreases |b|
  {
    if b == [] {
      assert a + b == a;
    } else {
      var init := b[..|b| - 1];
      assert (a + b)[..|a + b| - 1] == a + init;
      EvalLinksConcat(sem, c, source, a, init);
    }
  }

  // ----- grouping links into runs -----

  /** One Expression over the previous run's result; `last` indexes the last link inside it. */
  datatype Run = Run(input: Celltype, path: Path, celltype: Celltype, last: int)

  datatype OpenRun = OpenRun(run: Run, endsInConversion: bool, absorbed: bool)

  datatype Fuser = Fuser(runs: seq<Run>, open: Option<OpenRun>, current: Celltype)

  function Closed(f: Fuser): seq<Run> {
    if f.open.Some? then f.runs + [f.open.value.run] else f.runs
  }

  /** A pathless run that leaves its checksum as it is can be absorbed by the path after it. */
  predicate Absorbable(preserving: set<(Celltype, Celltype)>, o: OpenRun) {
    o.run.path == [] && !o.absorbed && (o.run.input == o.run.celltype || (o.run.input, o.run.celltype) in preserving)
  }

  function FuseStep(preserving: set<(Celltype, Celltype)>, f: Fuser, index: int, link: Link): Fuser {
    if IsDeep(f.current) || IsDeep(link.celltype) then
      Fuser(Closed(f) + [Run(f.current, link.path, link.celltype, index)], None, link.celltype)
    else if link.path != [] then
      if f.open.None? then
        Fuser(f.runs, Some(OpenRun(Run(f.current, link.path, link.celltype, index), false, false)), link.celltype)
      else
        var o := f.open.value;
        if !o.endsInConversion then
          Fuser(f.runs, Some(o.(run := Run(o.run.input, o.run.path + link.path, link.celltype, index))), link.celltype)
        else if Absorbable(preserving, o) then
          Fuser(f.runs, Some(OpenRun(Run(o.run.celltype, link.path, link.celltype, index), false, true)), link.celltype)
        else
          Fuser(Closed(f), Some(OpenRun(Run(f.current, link.path, link.celltype, index), false, false)), link.celltype)
    else if f.open.None? then
      Fuser(f.runs, Some(OpenRun(Run(f.current, [], link.celltype, index), true, false)), link.celltype)
    else
      var o := f.open.value;
      if link.celltype == f.current then
        Fuser(f.runs, Some(o.(run := o.run.(last := index))), link.celltype)
      else if o.endsInConversion then
        Fuser(Closed(f), Some(OpenRun(Run(f.current, [], link.celltype, index), true, false)), link.celltype)
      else
        Fuser(f.runs, Some(OpenRun(o.run.(celltype := link.celltype, last := index), true, o.absorbed)), link.celltype)
  }

  function Fuse(preserving: set<(Celltype, Celltype)>, source: Celltype, links: seq<Link>): Fuser {
    if links == [] then Fuser([], None, source)
    else FuseStep(preserving, Fuse(preserving, source, links[..|links| - 1]), |links| - 1, links[|links| - 1])
  }

  function Runs(preserving: set<(Celltype, Celltype)>, source: Celltype, links: seq<Link>): seq<Run> {
    Closed(Fuse(preserving, source, links))
  }

  method FusibleRuns(preserving: set<(Celltype, Celltype)>, source: Celltype, links: seq<Link>) returns (runs: seq<Run>)
    ensures runs == Runs(preserving, source, links)
  {
    runs := [];
    var open: Option<OpenRun> := None;
    var current := source;
    for index := 0 to |links|
      invariant Fuser(runs, open, current) == Fuse(preserving, source, links[..index])
    {
      assert links[..index + 1][..index] == links[..index];
      var celltype, path := links[index].celltype, links[index].path;
      if IsDeep(current) || IsDeep(celltype) {
        if open.Some? {
          runs, open := runs + [open.value.run], None;
        }
        runs := runs + [Run(current, path, celltype, index)];
      } else if path != [] {
        if open.None? {
          open := Some(OpenRun(Run(current, path, celltype, index), false, false));
        } else if !open.value.endsInConversion {
          var o := open.value;
          open := Some(o.(run := Run(o.run.input, o.run.path + path, celltype, index)));
        } else {
          var o := open.value;
          if o.run.path == [] && !o.absorbed
            && (o.run.input == o.run.celltype || (o.run.input, o.run.celltype) in preserving) {
            open := Some(OpenRun(Run(o.run.celltype, path, celltype, index), false, true));
          } else {
            runs := runs + [o.run];
            open := Some(OpenRun(Run(current, path, celltype, index), false, false));
          }
        }
      } else {
        if open.None? {
          open := Some(OpenRun(Run(current, [], celltype, index), true, false));
        } else if celltype == current {
          open := Some(open.value.(run := open.value.run.(last := index)));
        } else if open.value.endsInConversion {
          runs := runs + [open.value.run];
          open := Some(OpenRun(Run(current, [], celltype, index), true, false));
        } else {
          open := Some(OpenRun(open.value.run.(celltype := celltype, last := index), true, open.value.absorbed));
        }
      }
      current := celltype;
    }
    assert links[..|links|] == links;
    if open.Some? {
      runs := runs + [open.value.run];
    }
  }

  // ----- fusion preserves meaning -----

  function EvalRuns(sem: Semantics, c: Outcome, runs: seq<Run>): Outcome {
    if runs == [] then c
    else
      var last := runs[|runs| - 1];
      EvalExpression(sem, EvalRuns(sem, c, runs[..|runs| - 1]), last.input, last.path, last.celltype)
  }

  lemma EvalRunsSnoc(sem: Semantics, c: Outcome, runs: seq<Run>, run: Run)
    ensures EvalRuns(sem, c, runs + [run]) ==
      EvalExpression(sem, EvalRuns(sem, c, runs), run.input, run.path, run.celltype)
  {
    assert (runs + [run])[..|runs|] == runs;
  }

  /** The index just past the last link that `runs` cover. */
  function Reach(runs: seq<Run>): int {
    if runs == [] then 0 else runs[|runs| - 1].last + 1
  }

  /** Each run ends at a link boundary where fused and unfused evaluation agree. */
  ghost predicate Agrees(sem: Semantics, c: Outcome, source: Celltype, links: seq<Link>, runs: seq<Run>) {
    runs == [] ||
    var init := runs[..|runs| - 1];
    && Agrees(sem, c, source, links, init)
    && 0 <= Reach(init) < Reach(runs) <= |links|
    && EvalRuns(sem, c, runs) == EvalLinks(sem, c, source, links[..Reach(runs)])
  }

  lemma AgreesSnoc(sem: Semantics, c: Outcome, source: Celltype, links: seq<Link>, runs: seq<Run>, run: Run)
    requires Agrees(sem, c, source, links, runs)
    requires 0 <= Reach(runs) <= run.last < |links|
    requires EvalRuns(sem, c, runs + [run]) == EvalLinks(sem, c, source, links[..run.last + 1])
    ensures Agrees(sem, c, source, links, runs + [run])
  {
    assert (runs + [run])[..|runs|] == runs;
  }

  lemma {:induction false} AgreesAtEveryRun(sem: Semantics, c: Outcome, source: Celltype, links: seq<Link>,
      runs: seq<Run>, k: nat)
    requires Agrees(sem, c, source, links, runs) && k < |runs|
    ensures 0 <= Reach(runs[..k]) <= runs[k].last < |links|
    ensures EvalRuns(sem, c, runs[..k + 1]) == EvalLinks(sem, c, source, links[..runs[k].last + 1])
    decreases |runs|
  {
    var init := runs[..|runs| - 1];
    if k < |init| {
      AgreesAtEveryRun(sem, c, source, links, init, k);
      assert init[..k] == runs[..k] && init[..k + 1] == runs[..k + 1];
    } else {
      assert runs[..k + 1] == runs && runs[..k] == init;
    }
  }

  /** What an open run must look like for its Expression to mean the links it covers. */
  predicate OpenShape(f: Fuser, i: nat) {
    match f.open
    case None => Reach(f.runs) == i
    case Some(o) =>
      && o.run.last == i - 1
      && 0 <= Reach(f.runs) <= i - 1
      && o.run.celltype == f.current
      && (!o.endsInConversion ==> o.run.celltype == Projected(o.run.input, o.run.path))
  }

  ghost predicate FuserMeans(sem: Semantics, c: Outcome, source: Celltype, links: seq<Link>, i: nat, f: Fuser)
    requires i <= |links|
  {
    && f.current == TypeAfter(source, links[..i])
    && Agrees(sem, c, source, links, f.runs)
    && EvalRuns(sem, c, Closed(f)) == EvalLinks(sem, c, source, links[..i])
    && OpenShape(f, i)
  }

  lemma CloseMeans(sem: Semantics, c: Outcome, source: Celltype, links: seq<Link>, i: nat, f: Fuser)
    requires i <= |links| && FuserMeans(sem, c, source, links, i, f)
    ensures Agrees(sem, c, source, links, Closed(f)) && Reach(Closed(f)) == i
  {
    if f.open.Some? {
      AgreesSnoc(sem, c, source, links, f.runs, f.open.value.run);
    }
  }

  /** A link that joins the open run: the extended Expression does the link's own work. */
  lemma ExtendMeans(sem: Semantics, c: Outcome, source: Celltype, links: seq<Link>, i: nat, f: Fuser)
    requires Lawful(sem) && i < |links| && WellTyped(source, links)
    requires FuserMeans(sem, c, source, links, i, f) && f.open.Some?
    requires var o := f.open.value; !o.endsInConversion || Absorbable(sem.preserving, o)
    requires links[i].path != []
    ensures var o := f.open.value;
            var run := if !o.endsInConversion then Run(o.run.input, o.run.path + links[i].path, links[i].celltype, i)
                       else Run(o.run.celltype, links[i].path, links[i].celltype, i);
            && EvalRuns(sem, c, f.runs + [run]) == EvalLinks(sem, c, source, links[..i + 1])
            && run.celltype == Projected(run.input, run.path)
  {
    var o, link := f.open.value, links[i];
    var before := EvalRuns(sem, c, f.runs);
    EvalLinksStep(sem, c, source, links, i);
    EvalRunsSnoc(sem, c, f.runs, o.run);
    Unchanged(sem, Project(sem, before, o.run.input, o.run.path), o.run.celltype, o.run.celltype);
    if !o.endsInConversion {
      var run := Run(o.run.input, o.run.path + link.path, link.celltype, i);
      EvalRunsSnoc(sem, c, f.runs, run);
      ProjectConcat(sem, before, o.run.input, o.run.path, link.path);
      ProjectedConcat(o.run.input, o.run.path, link.path);
    } else {
      Unchanged(sem, before, o.run.input, o.run.celltype);
      EvalRunsSnoc(sem, c, f.runs, Run(o.run.celltype, link.path, link.celltype, i));
    }
  }

  /** A link that does not join the open run: that run is closed and the link starts afresh. */
  lemma RestartMeans(sem: Semantics, c: Outcome, source: Celltype, links: seq<Link>, i: nat, f: Fuser)
    requires i < |links| && FuserMeans(sem, c, source, links, i, f)
    ensures var alone := Run(f.current, links[i].path, links[i].celltype, i);
            && EvalRuns(sem, c, Closed(f) + [alone]) == EvalLinks(sem, c, source, links[..i + 1])
            && Agrees(sem, c, source, links, Closed(f) + [alone])
  {
    var alone := Run(f.current, links[i].path, links[i].celltype, i);
    CloseMeans(sem, c, source, links, i, f);
    EvalLinksStep(sem, c, source, links, i);
    EvalRunsSnoc(sem, c, Closed(f), alone);
    AgreesSnoc(sem, c, source, links, Closed(f), alone);
  }

  /** A conversion that joins the open run: an identity, or the run's own final conversion. */
  lemma ConvertMeans(sem: Semantics, c: Outcome, source: Celltype, links: seq<Link>, i: nat, f: Fuser)
    requires Lawful(sem) && i < |links| && FuserMeans(sem, c, source, links, i, f)
    requires links[i].path == [] && f.open.Some?
    requires links[i].celltype == f.current || !f.open.value.endsInConversion
    ensures EvalRuns(sem, c, f.runs + [f.open.value.run.(celltype := links[i].celltype, last := i)]) ==
            EvalLinks(sem, c, source, links[..i + 1])
  {
    var run := f.open.value.run;
    EvalLinksStep(sem, c, source, links, i);
    EvalRunsSnoc(sem, c, f.runs, run);
    var before := EvalRuns(sem, c, f.runs + [run]);
    Unchanged(sem, before, f.current, f.current);
    Unchanged(sem, Project(sem, EvalRuns(sem, c, f.runs), run.input, run.path), run.celltype, run.celltype);
    EvalRunsSnoc(sem, c, f.runs, f.open.value.run.(celltype := links[i].celltype, last := i));
  }

  lemma RestartStep(sem: Semantics, c: Outcome, source: Celltype, links: seq<Link>, i: nat, f: Fuser)
    requires i < |links| && WellTyped(source, links) && FuserMeans(sem, c, source, links, i, f)
    requires IsDeep(f.current) || IsDeep(links[i].celltype) || f.open.None? || !Joins(sem.preserving, f, links[i])
    ensures FuserMeans(sem, c, source, links, i + 1, FuseStep(sem.preserving, f, i, links[i]))
  {
    CloseMeans(sem, c, source, links, i, f);
    RestartMeans(sem, c, source, links, i, f);
    EvalLinksStep(sem, c, source, links, i);
    var g := FuseStep(sem.preserving, f, i, links[i]);
    assert Closed(g) == Closed(f) + [Run(f.current, links[i].path, links[i].celltype, i)];
  }

  lemma JoinStep(sem: Semantics, c: Outcome, source: Celltype, links: seq<Link>, i: nat, f: Fuser, g: Fuser)
    requires Lawful(sem) && i < |links| && WellTyped(source, links)
    requires FuserMeans(sem, c, source, links, i, f)
    requires !IsDeep(f.current) && !IsDeep(links[i].celltype) && f.open.Some? && Joins(sem.preserving, f, links[i])
    requires g == FuseStep(sem.preserving, f, i, links[i])
    ensures FuserMeans(sem, c, source, links, i + 1, g)
  {
    EvalLinksStep(sem, c, source, links, i);
    assert Closed(g) == f.runs + [g.open.value.run];
    if links[i].path != [] {
      ExtendMeans(sem, c, source, links, i, f);
    } else {
      ConvertMeans(sem, c, source, links, i, f);
      assert g.open.value.run == f.open.value.run.(celltype := links[i].celltype, last := i);
    }
  }

  lemma FuseStepMeans(sem: Semantics, c: Outcome, source: Celltype, links: seq<Link>, i: nat, f: Fuser)
    requires Lawful(sem) && i < |links| && WellTyped(source, links)
    requires FuserMeans(sem, c, source, links, i, f)
    ensures FuserMeans(sem, c, source, links, i + 1, FuseStep(sem.preserving, f, i, links[i]))
  {
    if !IsDeep(f.current) && !IsDeep(links[i].celltype) && f.open.Some? && Joins(sem.preserving, f, links[i]) {
      JoinStep(sem, c, source, links, i, f, FuseStep(sem.preserving, f, i, links[i]));
    } else {
      RestartStep(sem, c, source, links, i, f);
    }
  }

  predicate Joins(preserving: set<(Celltype, Celltype)>, f: Fuser, link: Link)
    requires f.open.Some?
  {
    var o := f.open.value;
    if link.path != [] then !o.endsInConversion || Absorbable(preserving, o)
    else link.celltype == f.current || !o.endsInConversion
  }

  lemma {:induction false} FuseMeans(sem: Semantics, c: Outcome, source: Celltype, links: seq<Link>, i: nat)
    requires Lawful(sem) && i <= |links| && WellTyped(source, links)
    ensures FuserMeans(sem, c, source, links, i, Fuse(sem.preserving, source, links[..i]))
  {
    if i > 0 {
      FuseMeans(sem, c, source, links, i - 1);
      assert links[..i][..i - 1] == links[..i - 1];
      var f := Fuse(sem.preserving, source, links[..i - 1]);
      FuseStepMeans(sem, c, source, links, i - 1, f);
    }
  }

  /** Evaluating the runs up to any run equals evaluating every link up to that run's last one,
      the runs tile the links in order, and the last run reaches the last link. */
  lemma FusionPreservesMeaning(sem: Semantics, c: Outcome, source: Celltype, links: seq<Link>)
    requires Lawful(sem) && WellTyped(source, links)
    ensures var runs := Runs(sem.preserving, source, links);
            && Reach(runs) == |links|
            && EvalRuns(sem, c, runs) == EvalLinks(sem, c, source, links)
            && EveryBoundaryAgrees(sem, c, source, links, runs)
  {
    assert links[..|links|] == links;
    var f := Fuse(sem.preserving, source, links);
    FuseMeans(sem, c, source, links, |links|);
    CloseMeans(sem, c, source, links, |links|, f);
    EveryRunAgrees(sem, c, source, links, Closed(f));
  }

  ghost predicate EveryBoundaryAgrees(sem: Semantics, c: Outcome, source: Celltype, links: seq<Link>, runs: seq<Run>) {
    forall k :: 0 <= k < |runs| ==>
      && 0 <= Reach(runs[..k]) <= runs[k].last < |links|
      && EvalRuns(sem, c, runs[..k + 1]) == EvalLinks(sem, c, source, links[..runs[k].last + 1])
  }

  lemma EveryRunAgrees(sem: Semantics, c: Outcome, source: Celltype, links: seq<Link>, runs: seq<Run>)
    requires Agrees(sem, c, source, links, runs)
    ensures EveryBoundaryAgrees(sem, c, source, links, runs)
  {
    forall k | 0 <= k < |runs|
      ensures 0 <= Reach(runs[..k]) <= runs[k].last < |links|
      ensures EvalRuns(sem, c, runs[..k + 1]) == EvalLinks(sem, c, source, links[..runs[k].last + 1])
    {
      AgreesAtEveryRun(sem, c, source, links, runs, k);
    }
  }

  /** The same for a recipe: no further condition on its path, positions or conversions. */
  lemma RecipeFusionPreservesMeaning(sem: Semantics, c: Outcome, source: Celltype, path: Path, steps: seq<Step>)
    requires Lawful(sem)
    ensures var links := AnonymousLinks(source, path, steps);
            var runs := Runs(sem.preserving, source, links);
            && Reach(runs) == |links|
            && EvalRuns(sem, c, runs) == EvalLinks(sem, c, source, links)
            && EveryBoundaryAgrees(sem, c, source, links, runs)
  {
    AnonymousLinksWellTyped(source, path, steps);
    FusionPreservesMeaning(sem, c, source, AnonymousLinks(source, path, steps));
  }
}
