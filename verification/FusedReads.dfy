/** A cell fed by a path reads its value from the furthest cell up the chain. It gets the value that
    its own source, projected directly, means. */
module FusedReads {
  import opened Dag
  import opened Derivation
  import opened DerivedGraphs
  import R = Recipes
  import F = Fusion

  /** The values that evaluation has brought in are those of the semantics. */
  ghost predicate Meant(facts: Facts, sem: F.Semantics) {
    forall k :: k in facts && k.Convert? && facts[k].Value? ==>
      Means(sem, k.checksum, k.expression.input, k.expression.path, k.expression.output) == F.Got(facts[k].checksum)
  }

  function Means(sem: F.Semantics, c: Checksum, input: R.Celltype, path: R.Path, output: R.Celltype): F.Outcome {
    F.EvalExpression(sem, F.Got(c), input, path, output)
  }

  /** A link without path and conversion has no runs. */
  ghost predicate Plain(g: Wired) {
    forall n :: n in g.nodes && g.nodes[n].Linked? && !g.nodes[n].edge.converts && g.nodes[n].edge.path == [] ==>
      g.nodes[n].edge.runs == []
  }

  lemma SplitMeans(sem: F.Semantics, c: Checksum, t: R.Celltype, p: R.Path, q: R.Path, u: R.Celltype, v: Checksum)
    requires F.Lawful(sem) && Means(sem, c, t, p, R.Projected(t, p)) == F.Got(v)
    ensures Means(sem, c, t, p + q, u) == Means(sem, v, R.Projected(t, p), q, u)
  {
    F.ProjectConcat(sem, F.Got(c), t, p, q);
    R.ProjectedConcat(t, p, q);
    F.Unchanged(sem, F.Project(sem, F.Got(c), t, p), R.Projected(t, p), R.Projected(t, p));
  }

  lemma ProjectionMeans(g: Wired, facts: Facts, sem: F.Semantics, c: Checksum, t: R.Celltype, path: R.Path,
      u: R.Celltype, check: nat)
    requires F.Lawful(sem) && Meant(facts, sem)
    ensures var p := Follow(facts, c, ProjectionRuns(g, t, path, u, check));
            p.Reached? ==> Means(sem, c, t, path, u) == F.Got(p.checksum)
  {
    var runs := ProjectionRuns(g, t, path, u, check);
    var p := Follow(facts, c, runs);
    if p.Reached? {
      var k := Convert(runs[0].expression, c);
      assert k in facts && facts[k].Value?;
      var v := facts[k].checksum;
      if |runs| == 2 {
        var rest := runs[1..];
        assert Follow(facts, v, rest) == p && rest[0] == runs[1] && rest[1..] == [];
        var l := Convert(rest[0].expression, v);
        assert l in facts && facts[l].Value? && Follow(facts, facts[l].checksum, rest[1..]) == p;
        assert path[..1] + path[1..] == path;
        hide Means, ProjectionRuns;
        SplitMeans(sem, c, t, path[..1], path[1..], u, v);
      } else {
        assert runs[1..] == [];
      }
    }
  }

  /** The value of a cell fed by a path, if it has one, is what its source projects to. */
  ghost predicate Direct(g: Wired, states: States, sem: F.Semantics, n: Node) {
    n in g.nodes && ReadsThrough(g.nodes[n]) && StateAt(states, n).Complete? ==>
      && StateAt(states, g.nodes[n].edge.source).Complete?
      && Means(sem, StateAt(states, g.nodes[n].edge.source).checksum, NodeType(g, g.nodes[n].edge.source),
               g.nodes[n].edge.path, g.nodes[n].celltype) == F.Got(StateAt(states, n).checksum)
  }

  lemma PathlessPasses(g: Wired, facts: Facts, states: States, n: Node)
    requires Plain(g) && Solution(g, facts, states) && n in g.nodes && g.nodes[n].Linked? && states[n].Complete?
    requires !g.nodes[n].edge.converts && g.nodes[n].edge.path == []
    requires NodeType(g, g.nodes[n].edge.source) == g.nodes[n].celltype
    ensures StateAt(states, g.nodes[n].edge.source) == states[n]
  {
    assert states[n] == Rule(g, facts, states, n);
    assert g.nodes[n].edge.runs == [];
    hide ProjectionRuns, Fused, Solution;
  }

  lemma {:induction false} FusedMeans(g: Wired, order: seq<Node>, facts: Facts, states: States, sem: F.Semantics,
      i: nat,
                                      n: Node, path: R.Path, target: R.Celltype, seen: set<Node>)
    requires Ordered(g, order) && Plain(g) && Solution(g, facts, states) && F.Lawful(sem) && i <= |order|
    requires n in Before(order, i) && StateAt(states, n).Complete?
    requires forall m :: m in Before(order, i) ==> Direct(g, states, sem, m)
    ensures var root := Fused(g, states, n, path, seen);
            Means(sem, root.checksum, root.celltype, root.path, target) ==
            Means(sem, StateAt(states, n).checksum, NodeType(g, n), path, target)
    decreases g.nodes.Keys - seen
  {
    var up := Upward(g, n);
    if up.Some? && n !in seen && up.value !in seen + {n} && StateAt(states, up.value).Complete? {
      UpMeans(g, order, facts, states, sem, i, n, path, target);
      hide Means, Direct, Ordered, Solution, Plain, Upward;
      FusedMeans(g, order, facts, states, sem, i, up.value, g.nodes[n].edge.path + path, target, seen + {n});
    }
  }

  /** One step up the chain, with the path that was stepped over. */
  lemma UpMeans(g: Wired, order: seq<Node>, facts: Facts, states: States, sem: F.Semantics, i: nat,
                n: Node, path: R.Path, target: R.Celltype)
    requires Ordered(g, order) && Plain(g) && Solution(g, facts, states) && F.Lawful(sem) && i <= |order|
    requires n in Before(order, i) && StateAt(states, n).Complete? && Direct(g, states, sem, n)
    requires Upward(g, n).Some? && StateAt(states, Upward(g, n).value).Complete?
    ensures var up := Upward(g, n).value;
            && up in Before(order, i)
            && Means(sem, StateAt(states, up).checksum, NodeType(g, up), g.nodes[n].edge.path + path, target) ==
               Means(sem, StateAt(states, n).checksum, NodeType(g, n), path, target)
  {
    var up, edge := Upward(g, n).value, g.nodes[n].edge;
    var j :| 0 <= j < i && order[..i][j] == n;
    assert order[j] == n && edge in EdgesOf(g.nodes[n]) && up in Sources(g.nodes[n]);
    EarlierFirst(order, j, i);
    hide Ordered, Before, Rule, Sources, EdgesOf;
    if edge.path == [] {
      PathlessPasses(g, facts, states, n);
      assert edge.path + path == path;
    } else {
      hide Means;
      SplitMeans(sem, StateAt(states, up).checksum, NodeType(g, up), edge.path, path, target,
        StateAt(states, n).checksum);
    }
  }

  lemma {:induction false} AllDirect(g: Wired, order: seq<Node>, facts: Facts, states: States, sem: F.Semantics, i: nat)
    requires Ordered(g, order) && Plain(g) && Solution(g, facts, states) && F.Lawful(sem) && Meant(facts, sem)
    requires i <= |order|
    ensures forall m :: m in Before(order, i) ==> Direct(g, states, sem, m)
    decreases i
  {
    hide *;
    if i == 0 {
      NothingBefore(order);
    } else {
      AllDirect(g, order, facts, states, sem, i - 1);
      NextDirect(g, order, facts, states, sem, i - 1);
      OneMoreBefore(order, i - 1);
    }
  }

  lemma NothingBefore(order: seq<Node>)
    ensures Before(order, 0) == {}
  {
  }

  lemma OneMoreBefore(order: seq<Node>, i: nat)
    requires i < |order|
    ensures Before(order, i + 1) == Before(order, i) + {order[i]}
  {
    assert order[..i + 1] == order[..i] + [order[i]];
  }

  lemma NextDirect(g: Wired, order: seq<Node>, facts: Facts, states: States, sem: F.Semantics, i: nat)
    requires Ordered(g, order) && Plain(g) && Solution(g, facts, states) && F.Lawful(sem) && Meant(facts, sem)
    requires i < |order|
    requires forall m :: m in Before(order, i) ==> Direct(g, states, sem, m)
    ensures Direct(g, states, sem, order[i])
  {
    var n := order[i];
    assert n in order && n in g.nodes && states[n] == Rule(g, facts, states, n);
    var body := g.nodes[n];
    if ReadsThrough(body) && states[n].Complete? {
      assert body.edge in EdgesOf(body) && body.edge.source in Sources(body);
      assert body.edge.source in Before(order, i);
      ReadIsSound(g, facts, states, n);
      hide Ordered, Plain, Means, Before, Rule, Follow, ProjectionRuns, Fused, Solution, Meant;
      var root := Fused(g, states, body.edge.source, body.edge.path, {});
      FusedMeans(g, order, facts, states, sem, i, body.edge.source, body.edge.path, body.celltype, {});
      ProjectionMeans(g, facts, sem, root.checksum, root.celltype, root.path, body.celltype, body.check);
    }
  }

  lemma ReadIsSound(g: Wired, facts: Facts, states: States, n: Node)
    requires n in g.nodes && ReadsThrough(g.nodes[n]) && Rule(g, facts, states, n).Complete?
    ensures g.nodes[n].edge.wiring.Sound? && StateAt(states, g.nodes[n].edge.source).Complete?
    ensures var body := g.nodes[n];
            var root := Fused(g, states, body.edge.source, body.edge.path, {});
            Follow(facts, root.checksum, ProjectionRuns(g, root.celltype, root.path, body.celltype, body.check)) ==
            Reached(Rule(g, facts, states, n).checksum)
  {
    hide Fused, ProjectionRuns, Follow;
  }

  /** Reading a path through a chain of cells changes no value: whichever cell it started from, the
      value is what the cell's own source, projected along its own path, means. */
  lemma FusedReadIsDirectRead(g: Wired, order: seq<Node>, facts: Facts, states: States, sem: F.Semantics, n: Node)
    requires Ordered(g, order) && Plain(g) && Solution(g, facts, states) && F.Lawful(sem) && Meant(facts, sem)
    requires n in g.nodes && ReadsThrough(g.nodes[n]) && states[n].Complete?
    ensures var edge := g.nodes[n].edge;
            && edge.source in states && states[edge.source].Complete?
            && Means(sem, states[edge.source].checksum, NodeType(g, edge.source), edge.path, g.nodes[n].celltype) ==
               F.Got(states[n].checksum)
  {
    AllDirect(g, order, facts, states, sem, |order|);
    assert n in order && order[..|order|] == order;
    assert n in Before(order, |order|);
    assert Direct(g, states, sem, n);
    hide Means;
    assert StateAt(states, g.nodes[n].edge.source).Complete?;
  }
}
