/** The derivation as the Context runs it: node after node, sources first, marking the facts it
    looks up. */
module Deriver {
  import opened Wrappers
  import opened Dag
  import opened Derivation
  import opened DerivedGraphs
  import R = Recipes

  /** The arcs are those of the graph. */
  ghost predicate Covers(arcs: seq<Arc>, g: Wired) {
    forall n, m :: n in g.nodes && m in Sources(g.nodes[n]) ==> m in g.nodes && Feeds(arcs, m, n)
  }

  lemma DagOrderIsOrdered(g: Wired, arcs: seq<Arc>, order: seq<Node>)
    requires Covers(arcs, g) && NoRepeats(order) && SourcesFirst(arcs, order)
    requires forall n :: n in g.nodes <==> n in order
    ensures Ordered(g, order)
  {
    forall i, m | 0 <= i < |order| && m in Sources(g.nodes[order[i]]) ensures m in Before(order, i) {
      assert order[i] in g.nodes;
      assert Feeds(arcs, m, order[i]);
      var k :| 0 <= k < |arcs| && arcs[k].source == m && arcs[k].target == order[i];
      assert arcs[k].source in order[..i];
    }
  }

  class Context {
    const graph: Wired
    const arcs: seq<Arc>
    var facts: Facts
    var jobs: set<Key>
    var states: States
    var used: set<Key>

    ghost function View(): Controller reads this { Controller(facts, jobs, states) }

    ghost predicate Valid() reads this {
      Acyclic(arcs) && Within(graph.nodes.Keys, arcs) && Covers(arcs, graph)
    }

    constructor (graph: Wired, arcs: seq<Arc>)
      requires Acyclic(arcs) && Within(graph.nodes.Keys, arcs) && Covers(arcs, graph)
      ensures Valid() && this.graph == graph && this.arcs == arcs && facts == map[]
    {
      this.graph, this.arcs := graph, arcs;
      facts, jobs, states, used := map[], {}, map[], {};
    }

    /** Looks a fact up, and so demands it. */
    method Demand(k: Key) returns (f: Option<Fact>)
      modifies this`used
      ensures used == old(used) + {k} && f == if k in facts then Some(facts[k]) else None
    {
      used := used + {k};
      f := if k in facts then Some(facts[k]) else None;
    }

    method Project(c: Checksum, runs: seq<Run>) returns (p: Progress)
      modifies this`used
      ensures p == Follow(facts, c, runs) && used == old(used) + Followed(facts, c, runs)
    {
      var current := c;
      for i := 0 to |runs|
        invariant Follow(facts, c, runs) == Follow(facts, current, runs[i..])
        invariant old(used) + Followed(facts, c, runs) == used + Followed(facts, current, runs[i..])
      {
        assert runs[i..][0] == runs[i] && runs[i..][1..] == runs[i + 1..];
        if !runs[i].legal {
          return Broke(ILL_FORMED, true);
        }
        var fact := Demand(Convert(runs[i].expression, current));
        match fact {
          case None => return Stuck;
          case Some(Error(e)) => return Broke(e, runs[i].told);
          case Some(Value(v)) => current := v;
        }
      }
      assert runs[|runs|..] == [];
      return Reached(current);
    }

    method SourceState(edge: Edge) returns (d: Signal)
      modifies this`used
      ensures d == Delivers(facts, states, edge) && used == old(used) + Looks(facts, states, edge)
    {
      if edge.wiring.Own? {
        return Awry;
      }
      if edge.wiring.Above? {
        return AwryAbove;
      }
      var source := if edge.source in states then states[edge.source] else Unwired;
      if !source.Complete? {
        return Passes(source);
      }
      var p := Project(source.checksum, edge.runs);
      d := match p
        case Reached(v) => Ready(v)
        case Broke(e, told) => Broken(e, if told then Here else Untold)
        case Stuck => Pending;
    }

    /** An edge, and then the target's own conversion of what it delivers. */
    method SourceThenOwn(edge: Edge, own: seq<Run>) returns (d: Signal, p: Progress)
      modifies this`used
      ensures d == Delivers(facts, states, edge) && used == old(used) + EdgeThenOwn(facts, states, edge, own)
      ensures p == if d.Ready? then Follow(facts, d.checksum, own) else Stuck
    {
      d := SourceState(edge);
      p := Stuck;
      if d.Ready? {
        p := Project(d.checksum, own);
      }
    }

    method DeriveLinked(edge: Edge, own: seq<Run>) returns (s: State)
      modifies this`used
      ensures s == LinkedState(facts, states, edge, own) && used == old(used) + EdgeThenOwn(facts, states, edge, own)
    {
      var d, p := SourceThenOwn(edge, own);
      match d {
        case Ready(_) => s := Shown(p);
        case Awry => s := Miswired;
        case AwryAbove => s := Blocked(ByMiswiring);
        case Unmet => s := Blocked(ByUnwired);
        case Broken(e, origin) => s := if origin.Here? then Failed(e) else Blocked(ByError);
        case Pending => s := Waiting;
      }
    }

    /** Walks the slots of a joined cell; a slot whose own conversion fails ends the walk. */
    method WalkSlots(slots: seq<Slot>) returns (fault: Option<Fault>)
      modifies this`used
      ensures fault == SlotFault(facts, states, slots) && used == old(used) + SlotKeys(facts, states, slots)
    {
      for i := 0 to |slots|
        invariant SlotFault(facts, states, slots) == SlotFault(facts, states, slots[i..])
        invariant old(used) + SlotKeys(facts, states, slots) == used + SlotKeys(facts, states, slots[i..])
      {
        assert slots[i..][0] == slots[i] && slots[i..][1..] == slots[i + 1..];
        var d, p := SourceThenOwn(slots[i].edge, slots[i].own);
        assert p == SlotProgress(facts, states, slots[i]);
        if p.Broke? {
          return Some(p.fault);
        }
      }
      assert slots[|slots|..] == [];
      return None;
    }

    method DeriveJoined(root: Stem, own: seq<Run>, slots: seq<Slot>) returns (s: State)
      modifies this`used
      ensures s == JoinedState(facts, states, root, own, slots)
      ensures used == old(used) + JoinDemands(facts, states, root, own, slots)
    {
      FaultIsNotReached(facts, states, slots);
      hide SlotFault, SlotKeys, SlotProgress, Delivers, Reasons, Followed, Follow;
      var fault := WalkSlots(slots);
      if fault.Some? {
        return Failed(fault.value);
      }
      if !AllReached(facts, states, slots) {
        var reasons := Reasons(facts, states, slots);
        return if AnyAwry(facts, states, slots) then Miswired
          else if reasons != map[] then BlockedAt(reasons) else Waiting;
      }
      var p := Reached(0);
      if root.value.Some? {
        p := Project(root.value.value, own);
      }
      assert p == RootProgress(facts, root, own);
      if p.Broke? {
        return Failed(p.fault);
      }
      if p.Stuck? {
        return Waiting;
      }
      var fact := Demand(JoinKey(facts, states, RootValue(root, p), slots));
      s := match fact case None => Waiting case Some(Value(c)) => Complete(c) case Some(Error(e)) => Failed(e);
    }

    /** A value at a pin: null may pass or be refused as it is, another is converted and read. */
    method TakeValue(pin: Pin, c: Checksum) returns (s: Supply)
      modifies this`used
      ensures s == Taken(facts, pin, c) && used == old(used) + TakenKeys(facts, pin, c)
    {
      if c == NULL_CHECKSUM {
        if pin.optional {
          return if pin.own == [] || pin.own[0].legal then Spared else Lacks(Behind(ByError));
        }
        if !pin.nullAllowed {
          return Lacks(Behind(ByError));
        }
      }
      var p := Project(c, pin.own);
      s := Converted(p);
      if s.Given? && s.checksum in pin.unreadable {
        s := Lacks(Behind(ByError));
      }
    }

    method SupplyPin(pin: Pin) returns (s: Supply)
      modifies this`used
      ensures s == SupplyOf(facts, states, pin) && used == old(used) + PinKeys(facts, states, pin)
    {
      match pin.input {
        case Missing => s := if pin.optional then Spared else Lacks(NoInput);
        case Constant(c) => s := TakeValue(pin, c);
        case FromEdge(edge) =>
          var d := SourceState(edge);
          if d.Ready? {
            s := TakeValue(pin, d.checksum);
          } else {
            s := Lacks(LackOf(d));
          }
      }
    }

    /** Goes over the inputs; the most urgent lack of all decides, and what is supplied is kept. */
    method SupplyAll(pins: seq<Pin>) returns (worst: Supply, arguments: seq<Member>)
      modifies this`used
      ensures worst == Worst(facts, states, pins) && arguments == Arguments(facts, states, pins)
      ensures used == old(used) + PinsKeys(facts, states, pins)
    {
      worst, arguments := Spared, [];
      for i := 0 to |pins|
        invariant used == old(used) + PinsKeys(facts, states, pins[|pins| - i..])
        invariant worst == Worst(facts, states, pins[|pins| - i..])
        invariant arguments == Arguments(facts, states, pins[|pins| - i..])
      {
        var k := |pins| - i - 1;
        assert pins[k..][0] == pins[k] && pins[k..][1..] == pins[k + 1..];
        var s := SupplyPin(pins[k]);
        worst := MoreUrgent(s, worst);
        arguments := (if s.Given? then [Member(pins[k].name, s.checksum)] else []) + arguments;
      }
    }

    method DeriveTransformer(n: Node, code: Input, pins: seq<Pin>, config: nat) returns (s: State)
      modifies this`used
      ensures s == TransformerState(facts, states, n, code, pins, config)
      ensures used == old(used) + PinsKeys(facts, states, [CodePin(code)] + pins)
                      + (if Worst(facts, states, [CodePin(code)] + pins).Lacks? then {}
                         else {ExecuteKey(facts, states, n, code, pins, config)})
    {
      ghost var all := [CodePin(code)] + pins;
      assert all[0] == CodePin(code) && all[1..] == pins;
      hide Delivers, Follow, Followed, Arguments, LackState;
      var worst, arguments := SupplyAll(pins);
      var given := SupplyPin(CodePin(code));
      worst := MoreUrgent(given, worst);
      assert worst == Worst(facts, states, all) && used == old(used) + PinsKeys(facts, states, all);
      hide SupplyOf, PinKeys, PinsKeys, Worst, MoreUrgent;
      if worst.Lacks? {
        return LackState(worst.lack);
      }
      var fact := Demand(Execute(n, if given.Given? then given.checksum else 0, arguments, config));
      s := match fact case None => Computing case Some(Value(c)) => Complete(c) case Some(Error(e)) => Failed(e);
    }

    /** Walks up from a complete source through links without conversions, as far as cells of the
        same celltype are complete. */
    method FusedProjectionSource(n: Node, path: R.Path) returns (root: Root)
      requires StateAt(states, n).Complete?
      ensures root == Fused(graph, states, n, path, {})
    {
      var node, below, seen: set<Node> := n, path, {};
      root := Root(StateAt(states, node).checksum, NodeType(graph, node), below);
      while true
        invariant StateAt(states, node).Complete?
        invariant root == Root(StateAt(states, node).checksum, NodeType(graph, node), below)
        invariant Fused(graph, states, n, path, {}) == Fused(graph, states, node, below, seen)
        decreases graph.nodes.Keys - seen
      {
        var up := Upward(graph, node);
        if up.None? || node in seen || up.value in seen + {node} || !StateAt(states, up.value).Complete? {
          return;
        }
        below, seen := graph.nodes[node].edge.path + below, seen + {node};
        node := up.value;
        root := Root(StateAt(states, node).checksum, NodeType(graph, node), below);
      }
    }

    /** A cell fed by a path whose source has a value. */
    method DeriveThrough(body: Body) returns (s: State)
      requires ReadsThrough(body) && StateAt(states, body.edge.source).Complete?
      modifies this`used
      ensures var root := Fused(graph, states, body.edge.source, body.edge.path, {});
              var runs := ProjectionRuns(graph, root.celltype, root.path, body.celltype, body.check);
              s == Shown(Follow(facts, root.checksum, runs)) && used == old(used) + Followed(facts, root.checksum, runs)
    {
      var root := FusedProjectionSource(body.edge.source, body.edge.path);
      var p := Project(root.checksum, ProjectionRuns(graph, root.celltype, root.path, body.celltype, body.check));
      s := Shown(p);
    }

    method DeriveNode(n: Node) returns (s: State)
      requires n in graph.nodes
      modifies this`used
      ensures s == Rule(graph, facts, states, n) && used == old(used) + Demands(graph, facts, states, n)
    {
      hide Fused, Follow, Followed, ProjectionRuns;
      match graph.nodes[n] {
        case Sick(_, e) => s := Failed(e);
        case Producer(_, value, own) =>
          if value.None? {
            return Unwired;
          }
          var p := Project(value.value, own);
          s := Shown(p);
        case Linked(_, edge, _) =>
          if edge.path != [] && !edge.converts && edge.wiring.Sound? && StateAt(states, edge.source).Complete? {
            s := DeriveThrough(graph.nodes[n]);
          } else {
            s := DeriveLinked(edge, OwnOf(graph, graph.nodes[n]));
          }
        case Joined(u, value, own, slots) => s := DeriveJoined(Stem(u, value), own, slots);
        case Transformer(_, code, pins, config) => s := DeriveTransformer(n, code, pins, config);
      }
    }

    /** Derives every node, then drops the facts and jobs that nobody demands any more and starts
        a job for each demanded fact that is missing. */
    method DeriveAll(sorted: seq<Node>) returns (ghost order: seq<Node>)
      requires Valid() && forall n :: n in sorted <==> n in graph.nodes
      modifies this
      ensures Valid() && Ordered(graph, order) && (forall n :: n in order ==> n in graph.nodes)
      ensures View() == Turn(graph, old(facts), order)
    {
      var walk := DeriveOrder(graph.nodes.Keys, sorted, arcs);
      order := walk;
      DagOrderIsOrdered(graph, arcs, walk);
      states, used := map[], {};
      hide Rule, Demands, UsedSoFar, DeriveUpTo, Ordered, Turn, Covers, Acyclic;
      for i := 0 to |walk|
        invariant facts == old(facts) && Valid()
        invariant forall n :: n in walk[..i] ==> n in graph.nodes
        invariant states == DeriveUpTo(graph, facts, walk[..i])
        invariant used == UsedSoFar(graph, facts, walk, i, states)
      {
        OneMoreDerived(graph, facts, walk, i);
        ghost var before := states;
        var s := DeriveNode(walk[i]);
        states := states[walk[i] := s];
        OneMoreUsed(graph, facts, walk, i, before, states);
      }
      TurnEnds(graph, facts, walk, states, used);
      jobs := used - facts.Keys;
      facts := map k | k in facts && k in used :: facts[k];
    }

    /** A result arrives; unless its job is gone, it becomes a fact and everything is derived. */
    method AcceptFact(k: Key, fact: Fact, sorted: seq<Node>) returns (ghost order: seq<Node>)
      requires Valid() && forall n :: n in sorted <==> n in graph.nodes
      modifies this
      ensures Valid() && (k in old(jobs) ==> Ordered(graph, order) && (forall n :: n in order ==> n in graph.nodes))
      ensures View() == if k in old(jobs) then Turn(graph, old(facts)[k := fact], order) else old(View())
    {
      order := [];
      if k in jobs {
        facts := facts[k := fact];
        jobs := jobs - {k};
        order := DeriveAll(sorted);
      }
    }
  }

  /** The keys that the first `i` nodes of the order demand. */
  ghost function UsedSoFar(g: Wired, facts: Facts, order: seq<Node>, i: nat, states: States): set<Key>
    requires i <= |order| && forall n :: n in order[..i] ==> n in g.nodes
  {
    set n, k | n in order[..i] && k in Demands(g, facts, states, n) :: k
  }

  lemma OneMoreUsed(g: Wired, facts: Facts, order: seq<Node>, i: nat, before: States, after: States)
    requires Ordered(g, order) && i < |order| && before.Keys == Before(order, i)
    requires order[i] in after && after == before[order[i] := after[order[i]]]
    requires (forall n :: n in order[..i + 1] ==> n in g.nodes) && (forall n :: n in order[..i] ==> n in g.nodes)
    ensures UsedSoFar(g, facts, order, i + 1, after) == UsedSoFar(g, facts, order, i, before)
      + Demands(g, facts, before, order[i])
  {
    assert order[i] !in before by { assert NoRepeats(order); }
    hide Rule, Demands, Ordered, Before;
    forall n | n in order[..i + 1] ensures Demands(g, facts, after, n) == Demands(g, facts, before, n) {
      var j :| 0 <= j <= i && order[j] == n;
      OrderedSources(g, order, j, before, after, i + 1);
      AgreesWithItself(facts, Demands(g, facts, before, n));
      RuleReads(g, facts, facts, before, after, n);
    }
    MoreUsed(g, facts, order, i, before, after);
  }

  lemma MoreUsed(g: Wired, facts: Facts, order: seq<Node>, i: nat, before: States, after: States)
    requires i < |order| && (forall n :: n in order[..i + 1] ==> n in g.nodes)
    requires (forall n :: n in order[..i] ==> n in g.nodes)
    requires forall n :: n in order[..i + 1] ==> Demands(g, facts, after, n) == Demands(g, facts, before, n)
    ensures order[i] in g.nodes
    ensures UsedSoFar(g, facts, order, i + 1, after) == UsedSoFar(g, facts, order, i, before)
      + Demands(g, facts, before, order[i])
  {
    assert order[..i + 1] == order[..i] + [order[i]];
    hide Demands;
  }

  lemma OneMoreDerived(g: Wired, facts: Facts, order: seq<Node>, i: nat)
    requires Ordered(g, order) && i < |order|
    ensures (forall n :: n in order[..i] ==> n in g.nodes) && (forall n :: n in order[..i + 1] ==> n in g.nodes)
    ensures order[i] in g.nodes
    ensures var before := DeriveUpTo(g, facts, order[..i]);
            && before.Keys == Before(order, i)
            && DeriveUpTo(g, facts, order[..i + 1]) == before[order[i] := Rule(g, facts, before, order[i])]
  {
    DerivedSoFar(g, facts, order, i);
    DerivedSoFar(g, facts, order, i + 1);
    assert order[..i + 1][..i] == order[..i] && order[i] in order[..i + 1];
    hide Rule;
    OneMoreStep(g, facts, order[..i + 1]);
  }

  lemma TurnEnds(g: Wired, facts: Facts, order: seq<Node>, states: States, used: set<Key>)
    requires Ordered(g, order) && (forall n :: n in order[..|order|] ==> n in g.nodes)
    requires states == DeriveUpTo(g, facts, order[..|order|]) && used == UsedSoFar(g, facts, order, |order|, states)
    ensures (forall n :: n in order ==> n in g.nodes)
    ensures Turn(g, facts, order) == Controller(map k | k in facts && k in used :: facts[k], used - facts.Keys, states)
  {
    assert order[..|order|] == order;
    hide Demands, DeriveUpTo;
    assert UsedSoFar(g, facts, order, |order|, states) == Used(g, facts, states);
  }
}
