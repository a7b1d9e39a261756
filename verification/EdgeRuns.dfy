/** What a cell that is fed by an edge shows: the value of the edge's recipe, once every fact that it
    demands is there. */
module EdgeRuns {
  import opened Wrappers
  import opened Dag
  import opened Derivation
  import opened DerivedGraphs
  import opened FusedReads
  import R = Recipes
  import F = Fusion
  import C = CutRecipes

  type Semantics = F.Semantics
  type Outcome = F.Outcome

  /** Which values a validator accepts; there is one number for having none. */
  type Validity = (nat, Checksum) -> bool

  ghost predicate Lenient(valid: Validity) {
    forall c :: valid(0, c)
  }

  // ----- expressions and facts -----

  function Checked(valid: Validity, check: nat, o: Outcome): Outcome {
    if o.Got? && o.checksum >= 0 && valid(check, o.checksum) then o else F.Failed
  }

  function Computed(sem: Semantics, valid: Validity, o: Outcome, e: Expression): Outcome {
    Checked(valid, e.check, F.EvalExpression(sem, o, e.input, e.path, e.output))
  }

  /** The facts about expressions are what these evaluate to. */
  ghost predicate Tells(facts: Facts, sem: Semantics, valid: Validity) {
    forall k :: k in facts && k.Convert? ==>
      match facts[k]
      case Value(v) => Computed(sem, valid, F.Got(k.checksum), k.expression) == F.Got(v)
      case Error(_) => Computed(sem, valid, F.Got(k.checksum), k.expression) == F.Failed
  }

  /** An expression that is refused when it is built evaluates to nothing. */
  ghost predicate Honest(g: Wired, sem: Semantics) {
    forall e, o :: e in g.refused ==> F.EvalExpression(sem, o, e.input, e.path, e.output) == F.Failed
  }

  /** No value of the semantics is out of a checksum's range. */
  ghost predicate Ranged(sem: Semantics) {
    && (forall c, t, component :: c >= 0 && sem.item(c, t, component).Got? ==> sem.item(c, t, component).checksum >= 0)
    && (forall c, t, u :: c >= 0 && sem.convert(c, t, u).Got? ==> sem.convert(c, t, u).checksum >= 0)
  }

  predicate InRange(o: Outcome) { o.Got? ==> o.checksum >= 0 }

  lemma {:induction false} ProjectInRange(sem: Semantics, o: Outcome, t: R.Celltype, path: R.Path)
    requires Ranged(sem) && InRange(o)
    ensures InRange(F.Project(sem, o, t, path))
    decreases |path|
  {
    if path != [] && o.Got? {
      ProjectInRange(sem, sem.item(o.checksum, t, path[0]), R.Member(t, path[0]), path[1..]);
    }
  }

  lemma ExpressionInRange(sem: Semantics, o: Outcome, t: R.Celltype, path: R.Path, u: R.Celltype)
    requires Ranged(sem) && InRange(o)
    ensures InRange(F.EvalExpression(sem, o, t, path, u))
  {
    ProjectInRange(sem, o, t, path);
  }

  // ----- runs one after the other -----

  function Ran(sem: Semantics, valid: Validity, o: Outcome, runs: seq<Run>): Outcome
    decreases |runs|
  {
    if runs == [] then o else Ran(sem, valid, Computed(sem, valid, o, runs[0].expression), runs[1..])
  }

  /** The runs are legal exactly if their expressions are not refused. */
  ghost predicate Built(g: Wired, runs: seq<Run>) {
    forall i :: 0 <= i < |runs| ==> (runs[i].legal <==> runs[i].expression !in g.refused)
  }

  lemma {:induction false} RanFailed(sem: Semantics, valid: Validity, runs: seq<Run>)
    ensures Ran(sem, valid, F.Failed, runs) == F.Failed
    decreases |runs|
  {
    if runs != [] {
      RanFailed(sem, valid, runs[1..]);
    }
  }

  lemma {:induction false} RanConcat(sem: Semantics, valid: Validity, o: Outcome, a: seq<Run>, b: seq<Run>)
    ensures Ran(sem, valid, o, a + b) == Ran(sem, valid, Ran(sem, valid, o, a), b)
    decreases |a|
  {
    if a == [] {
      assert a + b == b;
    } else {
      assert (a + b)[0] == a[0] && (a + b)[1..] == a[1..] + b;
      RanConcat(sem, valid, Computed(sem, valid, o, a[0].expression), a[1..], b);
    }
  }

  predicate All(facts: Facts, keys: set<Key>) { keys <= facts.Keys }

  /** Following runs whose facts are all there yields what the runs evaluate to. */
  lemma {:induction false} FollowRan(g: Wired, facts: Facts, sem: Semantics, valid: Validity, c: Checksum,
      runs: seq<Run>)
    requires Tells(facts, sem, valid) && Honest(g, sem) && Built(g, runs) && All(facts, Followed(facts, c, runs))
    ensures match Follow(facts, c, runs)
            case Reached(v) => Ran(sem, valid, F.Got(c), runs) == F.Got(v)
            case Broke(_, _) => Ran(sem, valid, F.Got(c), runs) == F.Failed
            case Stuck => false
    decreases |runs|
  {
    if runs != [] {
      var e, rest := runs[0].expression, runs[1..];
      assert forall i :: 0 <= i < |rest| ==> rest[i] == runs[i + 1];
      RanFailed(sem, valid, rest);
      if runs[0].legal {
        var k := Convert(e, c);
        assert k in Followed(facts, c, runs);
        if facts[k].Value? {
          assert forall l :: l in Followed(facts, facts[k].checksum, rest) ==> l in Followed(facts, c, runs);
          hide Computed, Built;
          assert Built(g, rest) by { RestBuilt(g, runs); }
          FollowRan(g, facts, sem, valid, facts[k].checksum, rest);
        }
      } else {
        assert e in g.refused;
      }
    }
  }

  lemma RestBuilt(g: Wired, runs: seq<Run>)
    requires runs != [] && Built(g, runs)
    ensures Built(g, runs[1..])
  {
  }

  // ----- the runs of a recipe -----

  function PartsOf(g: Wired, runs: seq<F.Run>): seq<Run> {
    if runs == [] then []
    else
      var last := runs[|runs| - 1];
      PartsOf(g, runs[..|runs| - 1]) + ProjectionRuns(g, last.input, last.path, last.celltype, 0)
  }

  function PrefixRuns(g: Wired, t: R.Celltype, prefix: seq<R.Celltype>): seq<Run>
    decreases |prefix|
  {
    if prefix == [] then []
    else (if prefix[0] != t then ProjectionRuns(g, t, [], prefix[0], 0) else []) + PrefixRuns(g, prefix[0], prefix[1..])
  }

  /** The error of a projection without conversions after it is dropped. */
  function Quietly(runs: seq<Run>): seq<Run> {
    seq(|runs|, i requires 0 <= i < |runs| => runs[i].(told := false))
  }

  function RestRuns(g: Wired, preserving: set<(R.Celltype, R.Celltype)>, t: R.Celltype, path: R.Path,
      steps: seq<R.Step>): seq<Run> {
    if steps != [] then PartsOf(g, F.Runs(preserving, t, R.AnonymousLinks(t, path, steps)))
    else if path != [] then Quietly(ProjectionRuns(g, t, path, R.Projected(t, path), 0))
    else []
  }

  /** The evaluations of an edge's recipe over its source's value, cut at a deep step. */
  function SourceRuns(g: Wired, preserving: set<(R.Celltype, R.Celltype)>, t: R.Celltype, path: R.Path,
      steps: seq<R.Step>): seq<Run> {
    match R.SplitDeepStep(t, path, steps)
    case None => RestRuns(g, preserving, t, path, steps)
    case Some(s) =>
      PrefixRuns(g, t, s.prefix) + ProjectionRuns(g, s.deep, path[..1], s.member, 0)
        + RestRuns(g, preserving, s.member, s.restPath, s.restSteps)
  }

  lemma BuiltConcat(g: Wired, a: seq<Run>, b: seq<Run>)
    requires Built(g, a) && Built(g, b)
    ensures Built(g, a + b)
  {
  }

  lemma ProjectionBuilt(g: Wired, t: R.Celltype, path: R.Path, u: R.Celltype, check: nat)
    ensures Built(g, ProjectionRuns(g, t, path, u, check))
  {
    hide DeepBarrier;
  }

  lemma {:induction false} PartsBuilt(g: Wired, runs: seq<F.Run>)
    ensures Built(g, PartsOf(g, runs))
  {
    if runs != [] {
      var last := runs[|runs| - 1];
      PartsBuilt(g, runs[..|runs| - 1]);
      ProjectionBuilt(g, last.input, last.path, last.celltype, 0);
      BuiltConcat(g, PartsOf(g, runs[..|runs| - 1]), ProjectionRuns(g, last.input, last.path, last.celltype, 0));
    }
  }

  lemma {:induction false} PrefixBuilt(g: Wired, t: R.Celltype, prefix: seq<R.Celltype>)
    ensures Built(g, PrefixRuns(g, t, prefix))
    decreases |prefix|
  {
    if prefix != [] {
      PrefixBuilt(g, prefix[0], prefix[1..]);
      ProjectionBuilt(g, t, [], prefix[0], 0);
      var one := if prefix[0] != t then ProjectionRuns(g, t, [], prefix[0], 0) else [];
      BuiltConcat(g, one, PrefixRuns(g, prefix[0], prefix[1..]));
    }
  }

  lemma SourceBuilt(g: Wired, preserving: set<(R.Celltype, R.Celltype)>, t: R.Celltype, path: R.Path,
      steps: seq<R.Step>)
    ensures Built(g, SourceRuns(g, preserving, t, path, steps))
  {
    match R.SplitDeepStep(t, path, steps) {
      case None => RestBuiltToo(g, preserving, t, path, steps);
      case Some(s) =>
        PrefixBuilt(g, t, s.prefix);
        ProjectionBuilt(g, s.deep, path[..1], s.member, 0);
        RestBuiltToo(g, preserving, s.member, s.restPath, s.restSteps);
        var step := ProjectionRuns(g, s.deep, path[..1], s.member, 0);
        hide *;
        BuiltConcat(g, PrefixRuns(g, t, s.prefix), step);
        BuiltConcat(g, PrefixRuns(g, t, s.prefix) + step, RestRuns(g, preserving, s.member, s.restPath, s.restSteps));
        hide Built;
        SourceRunsAre(g, preserving, t, path, steps);
    }
  }

  lemma SourceRunsAre(g: Wired, preserving: set<(R.Celltype, R.Celltype)>, t: R.Celltype, path: R.Path,
      steps: seq<R.Step>)
    requires R.SplitDeepStep(t, path, steps).Some?
    ensures var s := R.SplitDeepStep(t, path, steps).value;
            && path != []
            && SourceRuns(g, preserving, t, path, steps) ==
               PrefixRuns(g, t, s.prefix) + ProjectionRuns(g, s.deep, path[..1], s.member, 0)
                 + RestRuns(g, preserving, s.member, s.restPath, s.restSteps)
  {
    hide PrefixRuns, ProjectionRuns, RestRuns;
  }

  lemma RestBuiltToo(g: Wired, preserving: set<(R.Celltype, R.Celltype)>, t: R.Celltype, path: R.Path,
      steps: seq<R.Step>)
    ensures Built(g, RestRuns(g, preserving, t, path, steps))
  {
    PartsBuilt(g, F.Runs(preserving, t, R.AnonymousLinks(t, path, steps)));
    ProjectionBuilt(g, t, path, R.Projected(t, path), 0);
    hide ProjectionRuns, PartsOf;
  }

  // ----- what they evaluate to -----

  lemma Unchecked(valid: Validity, o: Outcome)
    requires Lenient(valid) && InRange(o)
    ensures Checked(valid, 0, o) == o
  {
  }

  /** A projection evaluates alike at once and through a deep step. */
  lemma ProjectionRan(g: Wired, sem: Semantics, valid: Validity, o: Outcome, t: R.Celltype, path: R.Path, u: R.Celltype,
      check: nat)
    requires F.Lawful(sem) && Lenient(valid) && Ranged(sem) && InRange(o)
    ensures Ran(sem, valid, o, ProjectionRuns(g, t, path, u, check)) ==
            Checked(valid, check, F.EvalExpression(sem, o, t, path, u))
  {
    var runs := ProjectionRuns(g, t, path, u, check);
    match DeepBarrier(t, path, u) {
      case None =>
        assert runs[1..] == [];
      case Some(member) =>
        assert runs == [runs[0], runs[1]];
        var first, rest := path[..1], path[1..];
        assert first + rest == path && member == R.Projected(t, first);
        ExpressionInRange(sem, o, t, first, member);
        Unchecked(valid, F.EvalExpression(sem, o, t, first, member));
        F.Unchanged(sem, F.Project(sem, o, t, first), member, member);
        F.ProjectConcat(sem, o, t, first, rest);
        R.ProjectedConcat(t, first, rest);
        var d := F.Project(sem, o, t, first);
        assert F.EvalExpression(sem, o, t, first, member) == d;
        assert Computed(sem, valid, o, runs[0].expression) == d;
        assert Computed(sem, valid, d, runs[1].expression) ==
               Checked(valid, check, F.EvalExpression(sem, o, t, path, u));
        hide Computed, Checked, F.EvalExpression;
        RanTwice(sem, valid, o, runs[0], runs[1]);
    }
  }

  lemma RanTwice(sem: Semantics, valid: Validity, o: Outcome, a: Run, b: Run)
    ensures Ran(sem, valid, o, [a, b]) == Computed(sem, valid, Computed(sem, valid, o, a.expression), b.expression)
  {
    assert [a, b][1..] == [b] && [b][1..] == [];
    hide Computed;
    var d := Computed(sem, valid, o, a.expression);
    assert Ran(sem, valid, o, [a, b]) == Ran(sem, valid, d, [b]);
    assert Ran(sem, valid, d, [b]) == Ran(sem, valid, Computed(sem, valid, d, b.expression), []);
  }

  lemma {:induction false} PartsRan(g: Wired, sem: Semantics, valid: Validity, o: Outcome, runs: seq<F.Run>)
    requires F.Lawful(sem) && Lenient(valid) && Ranged(sem) && InRange(o)
    ensures Ran(sem, valid, o, PartsOf(g, runs)) == F.EvalRuns(sem, o, runs) && InRange(F.EvalRuns(sem, o, runs))
  {
    if runs != [] {
      var init, last := runs[..|runs| - 1], runs[|runs| - 1];
      PartsRan(g, sem, valid, o, init);
      var d := F.EvalRuns(sem, o, init);
      RanConcat(sem, valid, o, PartsOf(g, init), ProjectionRuns(g, last.input, last.path, last.celltype, 0));
      ProjectionRan(g, sem, valid, d, last.input, last.path, last.celltype, 0);
      ExpressionInRange(sem, d, last.input, last.path, last.celltype);
      Unchecked(valid, F.EvalExpression(sem, d, last.input, last.path, last.celltype));
      hide Ran, ProjectionRuns, Checked, F.EvalExpression;
    }
  }

  lemma {:induction false} PrefixRan(g: Wired, sem: Semantics, valid: Validity, o: Outcome, t: R.Celltype,
      prefix: seq<R.Celltype>)
    requires F.Lawful(sem) && Lenient(valid) && Ranged(sem) && InRange(o)
    ensures var d := F.EvalLinks(sem, o, t, R.ConversionLinks(prefix));
            Ran(sem, valid, o, PrefixRuns(g, t, prefix)) == d && InRange(d)
    decreases |prefix|
  {
    if prefix != [] {
      var u, rest := prefix[0], prefix[1..];
      var d := F.EvalExpression(sem, o, t, [], u);
      assert R.ConversionLinks(prefix) == [R.Link(u, [])] + R.ConversionLinks(rest) && [R.Link(u, [])][..0] == [];
      F.EvalLinksConcat(sem, o, t, [R.Link(u, [])], R.ConversionLinks(rest));
      assert F.EvalLinks(sem, o, t, [R.Link(u, [])]) == d by { assert F.EvalLinks(sem, o, t, []) == o; }
      ExpressionInRange(sem, o, t, [], u);
      PrefixRan(g, sem, valid, d, u, rest);
      var one := if u != t then ProjectionRuns(g, t, [], u, 0) else [];
      RanConcat(sem, valid, o, one, PrefixRuns(g, u, rest));
      if u != t {
        ProjectionRan(g, sem, valid, o, t, [], u, 0);
        Unchecked(valid, d);
      } else {
        F.Unchanged(sem, o, t, u);
      }
      hide Ran, ProjectionRuns, Checked, F.EvalLinks;
    }
  }

  lemma {:induction false} QuietlyRan(sem: Semantics, valid: Validity, o: Outcome, runs: seq<Run>)
    ensures Ran(sem, valid, o, Quietly(runs)) == Ran(sem, valid, o, runs)
    decreases |runs|
  {
    if runs != [] {
      assert Quietly(runs)[1..] == Quietly(runs[1..]);
      QuietlyRan(sem, valid, Computed(sem, valid, o, runs[0].expression), runs[1..]);
    }
  }

  lemma RestRan(g: Wired, sem: Semantics, valid: Validity, o: Outcome, t: R.Celltype, path: R.Path, steps: seq<R.Step>)
    requires F.Lawful(sem) && Lenient(valid) && Ranged(sem) && InRange(o)
    ensures Ran(sem, valid, o, RestRuns(g, sem.preserving, t, path, steps)) ==
            F.EvalLinks(sem, o, t, R.AnonymousLinks(t, path, steps))
  {
    if steps != [] {
      PartsRan(g, sem, valid, o, F.Runs(sem.preserving, t, R.AnonymousLinks(t, path, steps)));
      F.RecipeFusionPreservesMeaning(sem, o, t, path, steps);
    } else {
      assert path[0..] == path;
      EvalWholePath(sem, o, t, path);
      if path != [] {
        var u := R.Projected(t, path);
        ProjectionRan(g, sem, valid, o, t, path, u, 0);
        QuietlyRan(sem, valid, o, ProjectionRuns(g, t, path, u, 0));
        ExpressionInRange(sem, o, t, path, u);
        Unchecked(valid, F.EvalExpression(sem, o, t, path, u));
      }
    }
    hide Ran, PartsOf, ProjectionRuns, F.EvalLinks;
  }

  lemma EvalWholePath(sem: Semantics, o: Outcome, t: R.Celltype, path: R.Path)
    requires F.Lawful(sem)
    ensures F.EvalLinks(sem, o, t, R.AnonymousLinks(t, path, [])) ==
            if path == [] then o else F.EvalExpression(sem, o, t, path, R.Projected(t, path))
  {
    assert path[0..] == path;
    C.PathAlone(sem, o, t, path);
    F.Unchanged(sem, F.Project(sem, o, t, path), R.Projected(t, path), R.Projected(t, path));
  }

  /** The evaluations of a recipe, cut and fused, yield what its links do one by one. */
  lemma SourceRan(g: Wired, sem: Semantics, valid: Validity, o: Outcome, t: R.Celltype, path: R.Path,
      steps: seq<R.Step>)
    requires F.Lawful(sem) && Lenient(valid) && Ranged(sem) && InRange(o)
    ensures Ran(sem, valid, o, SourceRuns(g, sem.preserving, t, path, steps)) ==
            F.EvalLinks(sem, o, t, R.AnonymousLinks(t, path, steps))
  {
    if R.SplitDeepStep(t, path, steps).None? {
      RestRan(g, sem, valid, o, t, path, steps);
    } else {
      var s := R.SplitDeepStep(t, path, steps).value;
      SourceRunsAre(g, sem.preserving, t, path, steps);
      C.SplitParts(t, path, steps);
      C.CutMeansWhole(sem, o, t, path, steps);
      hide Ran, SourceRuns, RestRuns, ProjectionRuns, PrefixRuns, R.SplitDeepStep, R.AnonymousLinks, F.EvalLinks;
      CutRan(g, sem, valid, o, t, path, s);
    }
  }

  lemma CutRan(g: Wired, sem: Semantics, valid: Validity, o: Outcome, t: R.Celltype, path: R.Path, s: R.DeepSplit)
    requires F.Lawful(sem) && Lenient(valid) && Ranged(sem) && InRange(o) && path != []
    requires s.deep == R.LastOr(t, s.prefix) && s.member == R.Projected(s.deep, path[..1])
    ensures Ran(sem, valid, o, PrefixRuns(g, t, s.prefix) + ProjectionRuns(g, s.deep, path[..1], s.member, 0)
              + RestRuns(g, sem.preserving, s.member, s.restPath, s.restSteps)) ==
            F.EvalLinks(sem, o, t, C.CutLinks(s, path))
  {
    var front, step := R.ConversionLinks(s.prefix), R.Link(s.member, path[..1]);
    var rest := R.AnonymousLinks(s.member, s.restPath, s.restSteps);
    var a, b := PrefixRuns(g, t, s.prefix), ProjectionRuns(g, s.deep, path[..1], s.member, 0);
    var d := F.EvalLinks(sem, o, t, front);
    var e := F.EvalExpression(sem, d, s.deep, path[..1], s.member);
    PrefixRan(g, sem, valid, o, t, s.prefix);
    ProjectionRan(g, sem, valid, d, s.deep, path[..1], s.member, 0);
    ExpressionInRange(sem, d, s.deep, path[..1], s.member);
    Unchecked(valid, e);
    RestRan(g, sem, valid, e, s.member, s.restPath, s.restSteps);
    C.LastConversion(t, s.prefix);
    assert (front + [step])[..|front|] == front;
    assert F.EvalLinks(sem, o, t, front + [step]) == e;
    assert R.TypeAfter(t, front + [step]) == s.member;
    hide Ran, RestRuns, ProjectionRuns, PrefixRuns, R.AnonymousLinks, F.EvalLinks, F.EvalExpression, Checked,
      R.TypeAfter;
    RanConcat(sem, valid, o, a, b);
    RanConcat(sem, valid, o, a + b, RestRuns(g, sem.preserving, s.member, s.restPath, s.restSteps));
    F.EvalLinksConcat(sem, o, t, front + [step], rest);
  }

  // ----- what a cell shows -----

  function ValueOf(s: State): Option<Checksum> {
    if s.Complete? then Some(s.checksum) else None
  }

  function Worth(o: Outcome): Option<Checksum> {
    if o.Got? && o.checksum >= 0 then Some(o.checksum) else None
  }

  /** The graph with another link into the cell `n`. */
  function Relinked(g: Wired, n: Node, body: Body): Wired {
    g.(nodes := g.nodes[n := body])
  }

  /** A cell whose edge converts shows what the edge's runs evaluate to. */
  lemma ConvertingShows(g: Wired, facts: Facts, states: States, sem: Semantics, valid: Validity, n: Node, c: Checksum)
    requires Tells(facts, sem, valid) && Honest(g, sem) && n in g.nodes && g.nodes[n].Linked?
    requires var edge := g.nodes[n].edge;
             && edge.converts && edge.wiring.Sound? && Built(g, edge.runs)
             && StateAt(states, edge.source) == Complete(c)
    requires All(facts, Demands(g, facts, states, n))
    ensures ValueOf(Rule(g, facts, states, n)) == Worth(Ran(sem, valid, F.Got(c), g.nodes[n].edge.runs))
  {
    var edge := g.nodes[n].edge;
    assert forall k :: k in Followed(facts, c, edge.runs) ==> k in Demands(g, facts, states, n);
    FollowRan(g, facts, sem, valid, c, edge.runs);
    hide Followed, Ran;
  }

  /** What a cell shows whose edge does not convert: its source's value if that is of its celltype,
      and else the projection of it, validated. */
  function Plainly(sem: Semantics, valid: Validity, c: Checksum, t: R.Celltype, path: R.Path, u: R.Celltype,
      check: nat): Outcome {
    if path == [] && t == u then F.Got(c) else Checked(valid, check, F.EvalExpression(sem, F.Got(c), t, path, u))
  }

  lemma {:induction false} SameFused(g: Wired, n: Node, body: Body, states: States, k: Node, path: R.Path,
      seen: set<Node>)
    requires n in g.nodes && g.nodes[n].Linked? && body.Linked? && body.celltype == g.nodes[n].celltype
    requires n !in Chain(g, k, seen) && StateAt(states, k).Complete?
    ensures Fused(Relinked(g, n, body), states, k, path, seen) == Fused(g, states, k, path, seen)
    decreases g.nodes.Keys - seen
  {
    var h := Relinked(g, n, body);
    assert k != n && h.nodes.Keys == g.nodes.Keys;
    SameUpward(g, n, body, k);
    var up := Upward(g, k);
    if up.Some? && k !in seen && up.value !in seen + {k} && StateAt(states, up.value).Complete? {
      SameFused(g, n, body, states, up.value, g.nodes[k].edge.path + path, seen + {k});
    }
  }

  lemma SameUpward(g: Wired, n: Node, body: Body, k: Node)
    requires n in g.nodes && g.nodes[n].Linked? && body.Linked? && body.celltype == g.nodes[n].celltype && k != n
    ensures Upward(Relinked(g, n, body), k) == Upward(g, k)
    ensures forall m :: NodeType(Relinked(g, n, body), m) == NodeType(g, m)
  {
  }

  lemma PathlessShows(g: Wired, facts: Facts, states: States, sem: Semantics, valid: Validity, n: Node, c: Checksum)
    requires F.Lawful(sem) && Lenient(valid) && Ranged(sem)
    requires Tells(facts, sem, valid) && Honest(g, sem) && n in g.nodes && g.nodes[n].Linked?
    requires var edge := g.nodes[n].edge;
             && !edge.converts && edge.wiring.Sound? && edge.path == [] && edge.runs == []
             && StateAt(states, edge.source) == Complete(c)
    requires All(facts, Demands(g, facts, states, n))
    ensures var body := g.nodes[n];
            ValueOf(Rule(g, facts, states, n)) ==
            Worth(Plainly(sem, valid, c, NodeType(g, body.edge.source), [], body.celltype, body.check))
  {
    var body := g.nodes[n];
    var t, own := NodeType(g, body.edge.source), OwnOf(g, body);
    assert Rooted(g, states, body) == body && Delivers(facts, states, body.edge) == Ready(c);
    assert Rule(g, facts, states, n) == Shown(Follow(facts, c, own));
    assert forall k :: k in Followed(facts, c, own) ==> k in Demands(g, facts, states, n);
    if t != body.celltype {
      ProjectionBuilt(g, t, [], body.celltype, body.check);
      hide Rule, Demands, ProjectionRuns, Followed, Ran;
      FollowRan(g, facts, sem, valid, c, own);
      ProjectionRan(g, sem, valid, F.Got(c), t, [], body.celltype, body.check);
    }
  }

  lemma ReadingShows(g: Wired, order: seq<Node>, i: nat, body: Body, facts: Facts, states: States, sem: Semantics,
      valid: Validity, c: Checksum)
    requires F.Lawful(sem) && Lenient(valid) && Ranged(sem)
    requires Tells(facts, sem, valid) && Honest(g, sem)
    requires Ordered(g, order) && Plain(g) && Solution(g, facts, states) && i < |order| && order[i] in g.nodes
    requires g.nodes[order[i]].Linked? && ReadsThrough(body) && body.celltype == g.nodes[order[i]].celltype
    requires body.edge.source == g.nodes[order[i]].edge.source && body.edge.wiring.Sound?
    requires StateAt(states, body.edge.source) == Complete(c)
    requires All(facts, Demands(Relinked(g, order[i], body), facts, states, order[i]))
    ensures ValueOf(Rule(Relinked(g, order[i], body), facts, states, order[i])) ==
            Worth(Plainly(sem, valid, c, NodeType(g, body.edge.source), body.edge.path, body.celltype, body.check))
  {
    var n, m, path := order[i], body.edge.source, body.edge.path;
    var h := Relinked(g, n, body);
    SourceBefore(g, order, i);
    ChainComesBefore(g, order, i, m, {});
    SameFused(g, n, body, states, m, path, {});
    TellsMeant(facts, sem, valid);
    AllDirect(g, order, facts, states, sem, i);
    FusedMeans(g, order, facts, states, sem, i, m, path, body.celltype, {});
    var root := Fused(g, states, m, path, {});
    var runs := ProjectionRuns(h, root.celltype, root.path, body.celltype, body.check);
    ReadRule(h, facts, states, n, root);
    ProjectionBuilt(h, root.celltype, root.path, body.celltype, body.check);
    hide Rule, Demands, ProjectionRuns, Followed, Ran, Fused, Ordered, Solution, Plain;
    FollowRan(h, facts, sem, valid, root.checksum, runs);
    ProjectionRan(h, sem, valid, F.Got(root.checksum), root.celltype, root.path, body.celltype, body.check);
  }

  lemma SourceBefore(g: Wired, order: seq<Node>, i: nat)
    requires Ordered(g, order) && i < |order| && order[i] in g.nodes && g.nodes[order[i]].Linked?
    ensures g.nodes[order[i]].edge.source in Before(order, i) && order[i] !in Before(order, i)
  {
    var body := g.nodes[order[i]];
    assert body.edge in EdgesOf(body) && body.edge.source in Sources(body);
  }

  lemma TellsMeant(facts: Facts, sem: Semantics, valid: Validity)
    requires Tells(facts, sem, valid)
    ensures Meant(facts, sem)
  {
    forall k | k in facts && k.Convert? && facts[k].Value?
      ensures Means(sem, k.checksum, k.expression.input, k.expression.path, k.expression.output) ==
        F.Got(facts[k].checksum) {
      assert Computed(sem, valid, F.Got(k.checksum), k.expression) == F.Got(facts[k].checksum);
    }
  }

  lemma ReadRule(g: Wired, facts: Facts, states: States, n: Node, root: Root)
    requires n in g.nodes && ReadsThrough(g.nodes[n]) && g.nodes[n].edge.wiring.Sound?
    requires StateAt(states, g.nodes[n].edge.source).Complete?
    requires root == Fused(g, states, g.nodes[n].edge.source, g.nodes[n].edge.path, {})
    ensures var body := g.nodes[n];
            var runs := ProjectionRuns(g, root.celltype, root.path, body.celltype, body.check);
            && Rule(g, facts, states, n) == Shown(Follow(facts, root.checksum, runs))
            && Demands(g, facts, states, n) == Followed(facts, root.checksum, runs)
  {
    hide Fused, ProjectionRuns, Follow, Followed;
  }

  // ----- recipes read their graph's refusals only -----

  lemma {:induction false} SameParts(g: Wired, h: Wired, runs: seq<F.Run>)
    requires g.refused == h.refused
    ensures PartsOf(g, runs) == PartsOf(h, runs)
  {
    if runs != [] {
      SameParts(g, h, runs[..|runs| - 1]);
    }
  }

  lemma {:induction false} SamePrefix(g: Wired, h: Wired, t: R.Celltype, prefix: seq<R.Celltype>)
    requires g.refused == h.refused
    ensures PrefixRuns(g, t, prefix) == PrefixRuns(h, t, prefix)
    decreases |prefix|
  {
    if prefix != [] {
      SamePrefix(g, h, prefix[0], prefix[1..]);
    }
  }

  lemma SameSourceRuns(g: Wired, h: Wired, preserving: set<(R.Celltype, R.Celltype)>, t: R.Celltype, path: R.Path,
      steps: seq<R.Step>)
    requires g.refused == h.refused
    ensures SourceRuns(g, preserving, t, path, steps) == SourceRuns(h, preserving, t, path, steps)
  {
    hide PrefixRuns, RestRuns, R.SplitDeepStep;
    match R.SplitDeepStep(t, path, steps) {
      case None =>
        SameRest(g, h, preserving, t, path, steps);
      case Some(s) =>
        C.SplitParts(t, path, steps);
        SamePrefix(g, h, t, s.prefix);
        SameProjection(g, h, s.deep, path[..1], s.member);
        SameRest(g, h, preserving, s.member, s.restPath, s.restSteps);
        hide ProjectionRuns;
        SourceRunsAre(g, preserving, t, path, steps);
        SourceRunsAre(h, preserving, t, path, steps);
    }
  }

  lemma SameProjection(g: Wired, h: Wired, t: R.Celltype, path: R.Path, u: R.Celltype)
    requires g.refused == h.refused
    ensures ProjectionRuns(g, t, path, u, 0) == ProjectionRuns(h, t, path, u, 0)
  {
    hide DeepBarrier;
  }

  lemma SameRest(g: Wired, h: Wired, preserving: set<(R.Celltype, R.Celltype)>, t: R.Celltype, path: R.Path,
      steps: seq<R.Step>)
    requires g.refused == h.refused
    ensures RestRuns(g, preserving, t, path, steps) == RestRuns(h, preserving, t, path, steps)
  {
    SameParts(g, h, F.Runs(preserving, t, R.AnonymousLinks(t, path, steps)));
    SameProjection(g, h, t, path, R.Projected(t, path));
    hide PartsOf, ProjectionRuns, F.Runs, R.AnonymousLinks, R.Projected;
  }

  // ----- the facts that runs need -----

  function FactOf(sem: Semantics, valid: Validity, e: Expression, c: Checksum): Fact {
    var o := Computed(sem, valid, F.Got(c), e);
    if o.Got? then Value(o.checksum) else Error(0)
  }

  function KeysAlong(sem: Semantics, valid: Validity, c: Checksum, runs: seq<Run>): set<Key>
    decreases |runs|
  {
    if runs == [] then {}
    else
      var e := runs[0].expression;
      var fact := FactOf(sem, valid, e, c);
      {Convert(e, c)} + (if fact.Value? then KeysAlong(sem, valid, fact.checksum, runs[1..]) else {})
  }

  function FactsAt(sem: Semantics, valid: Validity, keys: set<Key>): Facts {
    map k | k in keys && k.Convert? :: FactOf(sem, valid, k.expression, k.checksum)
  }

  lemma FactsTell(sem: Semantics, valid: Validity, keys: set<Key>)
    ensures Tells(FactsAt(sem, valid, keys), sem, valid)
  {
    hide F.EvalExpression;
  }

  lemma {:induction false} KeysAreThere(sem: Semantics, valid: Validity, keys: set<Key>, c: Checksum, runs: seq<Run>)
    requires KeysAlong(sem, valid, c, runs) <= keys
    ensures All(FactsAt(sem, valid, keys), Followed(FactsAt(sem, valid, keys), c, runs))
    decreases |runs|
  {
    if runs != [] && runs[0].legal {
      var k, facts := Convert(runs[0].expression, c), FactsAt(sem, valid, keys);
      assert k in keys && k in facts && facts[k] == FactOf(sem, valid, runs[0].expression, c);
      if facts[k].Value? {
        hide FactOf;
        KeysAreThere(sem, valid, keys, facts[k].checksum, runs[1..]);
      }
    }
  }
}
