/** What nodes show while they have no value, told by the wiring, by the sources' states and by where
    an evaluation stops. */
module ShownStates {
  import opened Wrappers
  import opened Dag
  import opened Derivation
  import DerivedCauses
  import J = JoinedCells
  import R = Recipes

  // ----- where an evaluation stops -----

  /** The first runs, as many as there are steps between the values, turn each value into the next. */
  ghost predicate Trail(facts: Facts, c: Checksum, runs: seq<Run>, values: seq<Checksum>) {
    && 0 < |values| <= |runs| + 1 && values[0] == c
    && forall i :: 0 <= i < |values| - 1 ==>
         && runs[i].legal && Convert(runs[i].expression, values[i]) in facts
         && facts[Convert(runs[i].expression, values[i])] == Value(values[i + 1])
  }

  /** No run is left, or the next one is refused, lacks its fact, or fails. */
  ghost predicate StopsAt(facts: Facts, runs: seq<Run>, values: seq<Checksum>)
    requires 0 < |values| <= |runs| + 1
  {
    var i := |values| - 1;
    i < |runs| && runs[i].legal && Convert(runs[i].expression, values[i]) in facts ==>
      facts[Convert(runs[i].expression, values[i])].Error?
  }

  function Stop(facts: Facts, runs: seq<Run>, values: seq<Checksum>): Progress
    requires 0 < |values| <= |runs| + 1
  {
    var i := |values| - 1;
    if i == |runs| then Reached(values[i])
    else if !runs[i].legal then Broke(ILL_FORMED, true)
    else
      var k := Convert(runs[i].expression, values[i]);
      if k in facts && facts[k].Error? then Broke(facts[k].fault, runs[i].told) else Stuck
  }

  /** Runs are followed to where their trail stops, and show what is met there. */
  lemma {:induction false} FollowsTheTrail(facts: Facts, c: Checksum, runs: seq<Run>, values: seq<Checksum>)
    requires Trail(facts, c, runs, values) && StopsAt(facts, runs, values)
    ensures Follow(facts, c, runs) == Stop(facts, runs, values)
    decreases |runs|
  {
    if |values| > 1 {
      assert forall i :: 0 <= i < |runs| - 1 ==> runs[1..][i] == runs[i + 1];
      assert forall i :: 0 <= i < |values| - 1 ==> values[1..][i] == values[i + 1];
      FollowsTheTrail(facts, values[1], runs[1..], values[1..]);
    }
  }

  // ----- a cell fed as a whole -----

  function Showing(p: Progress): State {
    match p case Reached(v) => Complete(v) case Broke(e, _) => Failed(e) case Stuck => Waiting
  }

  /** What is shown where the edge's evaluation stops; `own` is the cell's own conversion. */
  predicate StopShows(facts: Facts, p: Progress, own: seq<Run>, shown: State) {
    match p
    case Stuck => shown == Waiting
    case Broke(e, told) => shown == if told then Failed(e) else Blocked(ByError)
    case Reached(v) => shown == Showing(Follow(facts, v, own))
  }

  /** An ill-formed edge goes first. A source that works is waited for; without a value it blocks the cell,
      for the reason it has. A failed evaluation of the edge is the cell's own failure, but for that
      of a projection whose failure is not recorded: this blocks it. What the edge delivers, the cell
      converts. */
  lemma LinkedShows(g: Wired, facts: Facts, states: States, n: Node, values: seq<Checksum>)
    requires n in g.nodes && g.nodes[n].Linked?
    requires var edge := g.nodes[n].edge;
             edge.wiring.Sound? && StateAt(states, edge.source).Complete? && !ReadsThrough(g.nodes[n]) ==>
               Trail(facts, StateAt(states, edge.source).checksum, edge.runs, values)
                 && StopsAt(facts, edge.runs, values)
    ensures var edge, s, shown := g.nodes[n].edge, StateAt(states, g.nodes[n].edge.source), Rule(g, facts, states, n);
            if edge.wiring.Own? then shown == Miswired
            else if J.WhyNot(facts, states, edge).Some? && !s.Complete? then
              shown == Blocked(J.WhyNot(facts, states, edge).value)
            else if edge.wiring.Above? then shown == Blocked(ByMiswiring)
            else if !s.Complete? then shown == Waiting
            else if ReadsThrough(g.nodes[n]) then shown.Complete? || shown.Failed? || shown.Waiting?
            else StopShows(facts, Stop(facts, edge.runs, values), OwnOf(g, g.nodes[n]), shown)
  {
    var edge, s := g.nodes[n].edge, StateAt(states, g.nodes[n].edge.source);
    J.WhyNotIs(facts, states, edge);
    if edge.wiring.Sound? && s.Complete? && !ReadsThrough(g.nodes[n]) {
      FollowsTheTrail(facts, s.checksum, edge.runs, values);
    }
    hide Follow, J.WhyNot, Fused, ProjectionRuns, OwnOf, Trail, StopsAt;
  }

  // ----- a transformer -----

  /** Why an edge into an input has nothing, as far as wiring and source tell. */
  predicate Wants(facts: Facts, states: States, pin: Pin, r: Reason) {
    pin.input.FromEdge? && J.WhyNot(facts, states, pin.input.edge) == Some(r)
  }

  lemma PinLacks(facts: Facts, states: States, pin: Pin)
    ensures var s := SupplyOf(facts, states, pin);
            && (s == Lacks(Ill) <==> pin.input.FromEdge? && pin.input.edge.wiring.Own?)
            && (s == Lacks(NoInput) <==> pin.input.Missing? && !pin.optional)
            && (s == Lacks(Behind(ByMiswiring)) <==> Wants(facts, states, pin, ByMiswiring))
            && (s == Lacks(Behind(ByUnwired)) <==> Wants(facts, states, pin, ByUnwired))
  {
    if pin.input.FromEdge? {
      J.WhyNotIs(facts, states, pin.input.edge);
    }
    hide J.WhyNot, Follow, Delivers;
  }

  function Supplies(facts: Facts, states: States, body: Body): seq<Supply>
    requires body.Transformer?
  {
    var all := [CodePin(body.code)] + body.pins;
    seq(|all|, i requires 0 <= i < |all| => SupplyOf(facts, states, all[i]))
  }

  /** Of all inputs, the code's among them, an ill-formed one goes first, then one that is missing, then
      one behind ill-formed wiring, behind a missing value, behind an error, and then one that is late.
      If nothing is lacking it shows the answer to its execution, or that it computes. */
  lemma TransformerShows(g: Wired, facts: Facts, states: States, n: Node)
    requires n in g.nodes && g.nodes[n].Transformer?
    ensures var body, shown := g.nodes[n], Rule(g, facts, states, n);
            var all := [CodePin(body.code)] + body.pins;
            if exists i :: 0 <= i < |all| && all[i].input.FromEdge? && all[i].input.edge.wiring.Own? then
              shown == Miswired
            else if exists i :: 0 <= i < |all| && all[i].input.Missing? && !all[i].optional then shown == Unwired
            else if exists i :: 0 <= i < |all| && Wants(facts, states, all[i], ByMiswiring) then
              shown == Blocked(ByMiswiring)
            else if exists i :: 0 <= i < |all| && Wants(facts, states, all[i], ByUnwired) then
              shown == Blocked(ByUnwired)
            else if Lacks(Behind(ByError)) in Supplies(facts, states, body) then shown == Blocked(ByError)
            else if exists s :: s in Supplies(facts, states, body) && s.Lacks? then shown == Waiting
            else shown.Complete? || shown.Failed? || shown.Computing?
  {
    var body := g.nodes[n];
    var all, sups := [CodePin(body.code)] + body.pins, Supplies(facts, states, body);
    forall i | 0 <= i < |all|
      ensures var s := sups[i];
              && (s == Lacks(Ill) <==> all[i].input.FromEdge? && all[i].input.edge.wiring.Own?)
              && (s == Lacks(NoInput) <==> all[i].input.Missing? && !all[i].optional)
              && (s == Lacks(Behind(ByMiswiring)) <==> Wants(facts, states, all[i], ByMiswiring))
              && (s == Lacks(Behind(ByUnwired)) <==> Wants(facts, states, all[i], ByUnwired))
    {
      PinLacks(facts, states, all[i]);
    }
    SuppliesShow(g, facts, states, n);
    hide SupplyOf, Wants, Rule;
  }

  function MostUrgent(sups: seq<Supply>): State {
    if Lacks(Ill) in sups then Miswired
    else if Lacks(NoInput) in sups then Unwired
    else if Lacks(Behind(ByMiswiring)) in sups then Blocked(ByMiswiring)
    else if Lacks(Behind(ByUnwired)) in sups then Blocked(ByUnwired)
    else if Lacks(Behind(ByError)) in sups then Blocked(ByError)
    else Waiting
  }

  lemma SuppliesShow(g: Wired, facts: Facts, states: States, n: Node)
    requires n in g.nodes && g.nodes[n].Transformer?
    ensures var sups, shown := Supplies(facts, states, g.nodes[n]), Rule(g, facts, states, n);
            if exists s :: s in sups && s.Lacks? then shown == MostUrgent(sups)
            else shown.Complete? || shown.Failed? || shown.Computing?
  {
    var body, shown := g.nodes[n], Rule(g, facts, states, n);
    var all, sups := [CodePin(body.code)] + body.pins, Supplies(facts, states, body);
    assert shown == LocalRule(facts, states, n, body, []);
    DerivedCauses.TransformerPriority(facts, states, n, body);
    assert forall i :: 0 <= i < |all| ==> sups[i] == SupplyOf(facts, states, all[i]);
    hide SupplyOf, Supplies, Rule, LocalRule, ExecuteKey, Urgency, MostUrgent;
    if s :| s in sups && s.Lacks? {
      var j :| 0 <= j < |all| && sups[j].Lacks? && shown == LackState(sups[j].lack)
        && forall i :: 0 <= i < |all| && sups[i].Lacks? ==> Urgency(sups[j].lack) <= Urgency(sups[i].lack);
      MostUrgentIs(sups, j);
    }
  }

  lemma MostUrgentIs(sups: seq<Supply>, j: nat)
    requires j < |sups| && sups[j].Lacks?
    requires forall i :: 0 <= i < |sups| && sups[i].Lacks? ==> Urgency(sups[j].lack) <= Urgency(sups[i].lack)
    ensures LackState(sups[j].lack) == MostUrgent(sups)
  {
    assert sups[j] in sups;
  }

  // ----- the cell that a path is read from -----

  /** The cell `n` has the value of the cell `m` at a path: it is fed by it without a conversion, at its
      own celltype, and not from below a deep one; and `m` has a value. */
  predicate ReadsOnto(g: Wired, states: States, n: Node, m: Node) {
    && n in g.nodes && m in g.nodes && g.nodes[n].Linked? && !g.nodes[m].Transformer?
    && var edge := g.nodes[n].edge;
       && edge.source == m && !edge.converts && R.Projected(g.nodes[m].celltype, edge.path) == g.nodes[n].celltype
       && (edge.path != [] ==> !R.IsDeep(g.nodes[m].celltype))
       && StateAt(states, m).Complete?
  }

  ghost predicate WalksUp(g: Wired, states: States, walk: seq<Node>) {
    walk != [] && forall i :: 0 <= i < |walk| - 1 ==> ReadsOnto(g, states, walk[i], walk[i + 1])
  }

  function PathAlong(g: Wired, walk: seq<Node>, path: R.Path): R.Path
    decreases |walk|
  {
    if |walk| < 2 || walk[0] !in g.nodes || !g.nodes[walk[0]].Linked? then path
    else PathAlong(g, walk[1..], g.nodes[walk[0]].edge.path + path)
  }

  /** A path is read from the cell furthest up: over a walk of cells each of which has the next one's value
      at a path, to one that goes on to no other. */
  lemma {:induction false} ReadFromFurthest(g: Wired, states: States, n: Node, path: R.Path, seen: set<Node>)
      returns (walk: seq<Node>)
    requires n in g.nodes && StateAt(states, n).Complete?
    ensures WalksUp(g, states, walk) && walk[0] == n
    ensures var last := walk[|walk| - 1];
            && StateAt(states, last).Complete? && last in g.nodes
            && Fused(g, states, n, path, seen) ==
                 Root(StateAt(states, last).checksum, g.nodes[last].celltype, PathAlong(g, walk, path))
            && (forall m :: ReadsOnto(g, states, last, m) ==> m in seen || m in walk || last in seen)
    decreases g.nodes.Keys - seen
  {
    var up := Upward(g, n);
    if up.Some? && n !in seen && up.value !in seen + {n} && StateAt(states, up.value).Complete? {
      var rest := ReadFromFurthest(g, states, up.value, g.nodes[n].edge.path + path, seen + {n});
      walk := [n] + rest;
      assert walk[1..] == rest;
      assert forall i :: 0 < i < |walk| ==> walk[i] == rest[i - 1];
      hide Fused;
    } else {
      walk := [n];
    }
  }
}
