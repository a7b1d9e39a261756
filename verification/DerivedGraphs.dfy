/** A whole graph derived: the states are the one solution of the nodes' rules, whatever the order
    of derivation and whatever way the facts came in. */
module DerivedGraphs {
  import opened Wrappers
  import opened Dag
  import opened Derivation
  import R = Recipes

  /** Each node once, after all of its sources. */
  ghost predicate Ordered(g: Wired, order: seq<Node>) {
    && NoRepeats(order) && (forall n :: n in g.nodes <==> n in order)
    && (forall i :: 0 <= i < |order| ==> Sources(g.nodes[order[i]]) <= Before(order, i))
  }

  function Before(order: seq<Node>, i: nat): set<Node>
    requires i <= |order|
  {
    set n | n in order[..i]
  }

  /** Every node is in the state its rule gives it. */
  ghost predicate Solution(g: Wired, facts: Facts, states: States) {
    states.Keys == g.nodes.Keys && forall n :: n in g.nodes ==> states[n] == Rule(g, facts, states, n)
  }

  function Used(g: Wired, facts: Facts, states: States): set<Key> {
    set n, k | n in g.nodes && k in Demands(g, facts, states, n) :: k
  }

  lemma {:induction false} ChainComesBefore(g: Wired, order: seq<Node>, i: nat, n: Node, seen: set<Node>)
    requires Ordered(g, order) && i <= |order| && n in Before(order, i)
    ensures Chain(g, n, seen) <= Before(order, i)
    decreases g.nodes.Keys - seen
  {
    var up := Upward(g, n);
    if up.Some? && n !in seen && up.value !in seen + {n} {
      var j :| 0 <= j < i && order[j] == n;
      assert g.nodes[n].edge in EdgesOf(g.nodes[n]) && up.value in Sources(g.nodes[n]);
      EarlierFirst(order, j, i);
      ChainComesBefore(g, order, i, up.value, seen + {n});
    }
  }

  lemma EarlierFirst(order: seq<Node>, j: nat, i: nat)
    requires j <= i <= |order|
    ensures Before(order, j) <= Before(order, i)
  {
    forall n | n in Before(order, j) ensures n in Before(order, i) {
      var k :| 0 <= k < j && order[..j][k] == n;
      assert order[..i][k] == n;
    }
  }

  /** What a node's rule reads has been derived before it. */
  lemma ReadsComeBefore(g: Wired, order: seq<Node>, i: nat)
    requires Ordered(g, order) && i < |order| && order[i] in g.nodes
    ensures Reads(g, g.nodes[order[i]]) <= Before(order, i)
  {
    var body := g.nodes[order[i]];
    if ReadsThrough(body) {
      assert body.edge in EdgesOf(body) && body.edge.source in Sources(body);
      ChainComesBefore(g, order, i, body.edge.source, {});
    }
  }

  ghost predicate AgreeAt(g: Wired, f: Facts, h: Facts, s: States, t: States, n: Node) {
    && n in g.nodes && n in s && n in t && s[n] == t[n]
    && Demands(g, f, s, n) == Demands(g, h, t, n)
  }

  lemma {:induction false} SolutionsAgree(g: Wired, order: seq<Node>, f: Facts, h: Facts, s: States, t: States, i: nat)
    requires Ordered(g, order) && Solution(g, f, s) && Solution(g, h, t) && i <= |order|
    requires Agree(f, h, Used(g, f, s))
    ensures forall j :: 0 <= j < i ==> AgreeAt(g, f, h, s, t, order[j])
    decreases i
  {
    hide *;
    if i > 0 {
      SolutionsAgree(g, order, f, h, s, t, i - 1);
      NextAgrees(g, order, f, h, s, t, i - 1);
    }
  }

  lemma NextAgrees(g: Wired, order: seq<Node>, f: Facts, h: Facts, s: States, t: States, i: nat)
    requires Ordered(g, order) && Solution(g, f, s) && Solution(g, h, t) && i < |order|
    requires Agree(f, h, Used(g, f, s)) && forall j :: 0 <= j < i ==> AgreeAt(g, f, h, s, t, order[j])
    ensures AgreeAt(g, f, h, s, t, order[i])
  {
    var n := order[i];
    assert n in order && n in g.nodes;
    hide Rule, Demands;
    SameBefore(g, order, s, t, i) by {
      assert forall j :: 0 <= j < i ==> AgreeAt(g, f, h, s, t, order[j]);
    }
    assert forall k :: k in Demands(g, f, s, n) ==> k in Used(g, f, s);
    RuleReads(g, f, h, s, t, n);
  }

  lemma SameBefore(g: Wired, order: seq<Node>, s: States, t: States, i: nat)
    requires Ordered(g, order) && i < |order| && order[i] in g.nodes && s.Keys == g.nodes.Keys == t.Keys
    requires forall j :: 0 <= j < i ==> order[j] in s && order[j] in t && s[order[j]] == t[order[j]]
    ensures SameOn(s, t, Reads(g, g.nodes[order[i]]))
  {
    ReadsComeBefore(g, order, i);
    hide Reads;
    forall m | m in Reads(g, g.nodes[order[i]]) ensures StateAt(s, m) == StateAt(t, m) {
      assert m in Before(order, i);
      var j :| 0 <= j < i && order[..i][j] == m;
      assert order[j] == m;
    }
  }

  /** Facts that agree on what is demanded have the same solution: there is only one, whatever
      order of the nodes it was found in, and facts that nobody demands do not matter. */
  lemma OneSolution(g: Wired, order: seq<Node>, f: Facts, h: Facts, s: States, t: States)
    requires Ordered(g, order) && Solution(g, f, s) && Solution(g, h, t) && Agree(f, h, Used(g, f, s))
    ensures s == t && Used(g, f, s) == Used(g, h, t)
  {
    SolutionsAgree(g, order, f, h, s, t, |order|);
    hide Rule, Demands;
    forall n | n in g.nodes ensures AgreeAt(g, f, h, s, t, n) {
      assert n in order;
      var j :| 0 <= j < |order| && order[j] == n;
    }
  }

  // ----- deriving in order -----

  /** The states found by deriving the nodes of `order` one after the other. */
  function DeriveUpTo(g: Wired, facts: Facts, order: seq<Node>): States
    requires forall n :: n in order ==> n in g.nodes
  {
    if order == [] then map[]
    else
      var before := DeriveUpTo(g, facts, order[..|order| - 1]);
      before[order[|order| - 1] := Rule(g, facts, before, order[|order| - 1])]
  }

  lemma {:induction false} DerivedSoFar(g: Wired, facts: Facts, order: seq<Node>, i: nat)
    requires Ordered(g, order) && i <= |order|
    ensures forall n :: n in order[..i] ==> n in g.nodes
    ensures var states := DeriveUpTo(g, facts, order[..i]);
            && states.Keys == Before(order, i)
            && forall j :: 0 <= j < i ==> order[j] in g.nodes && states[order[j]] == Rule(g, facts, states, order[j])
    decreases i
  {
    forall n | n in order[..i] ensures n in g.nodes {
      assert n in order;
    }
    if i > 0 {
      DerivedSoFar(g, facts, order, i - 1);
      DeriveOneMore(g, facts, order, i);
    }
  }

  lemma DeriveOneMore(g: Wired, facts: Facts, order: seq<Node>, i: nat)
    requires Ordered(g, order) && 0 < i <= |order| && (forall n :: n in order[..i] ==> n in g.nodes)
    requires (forall n :: n in order[..i - 1] ==> n in g.nodes)
    requires var before := DeriveUpTo(g, facts, order[..i - 1]);
             && before.Keys == Before(order, i - 1)
             && forall j :: 0 <= j < i - 1 ==>
                order[j] in g.nodes && before[order[j]] == Rule(g, facts, before, order[j])
    ensures var states := DeriveUpTo(g, facts, order[..i]);
            && states.Keys == Before(order, i)
            && forall j :: 0 <= j < i ==> order[j] in g.nodes && states[order[j]] == Rule(g, facts, states, order[j])
  {
    var before, n := DeriveUpTo(g, facts, order[..i - 1]), order[i - 1];
    OneMoreStep(g, facts, order[..i]);
    assert order[..i][..i - 1] == order[..i - 1] && order[..i][i - 1] == n;
    assert n in g.nodes && n !in before by { assert n in order[..i]; }
    hide Rule, DeriveUpTo, Ordered;
    NewestSolves(g, facts, order, i, before, DeriveUpTo(g, facts, order[..i]));
  }

  lemma OneMoreStep(g: Wired, facts: Facts, order: seq<Node>)
    requires order != [] && forall n :: n in order ==> n in g.nodes
    ensures (forall n :: n in order[..|order| - 1] ==> n in g.nodes) && order[|order| - 1] in g.nodes
    ensures var before, n := DeriveUpTo(g, facts, order[..|order| - 1]), order[|order| - 1];
            DeriveUpTo(g, facts, order) == before[n := Rule(g, facts, before, n)]
  {
    hide Rule;
  }

  lemma NewestSolves(g: Wired, facts: Facts, order: seq<Node>, i: nat, before: States, states: States)
    requires Ordered(g, order) && 0 < i <= |order| && order[i - 1] in g.nodes && order[i - 1] !in before
    requires before.Keys == Before(order, i - 1)
    requires states == before[order[i - 1] := Rule(g, facts, before, order[i - 1])]
    requires forall j :: 0 <= j < i - 1 ==> order[j] in g.nodes && before[order[j]] == Rule(g, facts, before, order[j])
    ensures states.Keys == Before(order, i)
    ensures forall j :: 0 <= j < i ==> order[j] in g.nodes && states[order[j]] == Rule(g, facts, states, order[j])
  {
    assert Before(order, i) == Before(order, i - 1) + {order[i - 1]};
    forall j | 0 <= j < i
      ensures order[j] in g.nodes && order[j] in states && states[order[j]] == Rule(g, facts, states, order[j]) {
      assert order[j] in order[..i] && order[j] in Before(order, i);
      assert j < i - 1 ==> order[j] in before by { assert j < i - 1 ==> order[j] in order[..i - 1]; }
      hide Rule, Demands, Before, Ordered;
      OrderedSources(g, order, j, before, states, i);
      AgreesWithItself(facts, Demands(g, facts, before, order[j]));
      RuleReads(g, facts, facts, before, states, order[j]);
    }
  }

  lemma AgreesWithItself(f: Facts, keys: set<Key>)
    ensures Agree(f, f, keys)
  {
  }

  lemma OrderedSources(g: Wired, order: seq<Node>, j: nat, before: States, states: States, i: nat)
    requires Ordered(g, order) && 0 < i <= |order| && j < i && order[j] in g.nodes
    requires before.Keys == Before(order, i - 1) && states.Keys == before.Keys + {order[i - 1]}
    requires forall n :: n in before ==> n != order[i - 1] && states[n] == before[n]
    ensures SameOn(before, states, Reads(g, g.nodes[order[j]]))
  {
    ReadsComeBefore(g, order, j);
    EarlierFirst(order, j, i - 1);
    hide Reads;
    forall m | m in Reads(g, g.nodes[order[j]]) ensures StateAt(before, m) == StateAt(states, m) {
      assert m in Before(order, j) && m in Before(order, i - 1);
    }
  }

  /** Deriving each node once, sources first, solves every rule. */
  lemma DerivedIsSolution(g: Wired, facts: Facts, order: seq<Node>)
    requires Ordered(g, order)
    ensures (forall n :: n in order ==> n in g.nodes) && Solution(g, facts, DeriveUpTo(g, facts, order))
  {
    DerivedSoFar(g, facts, order, |order|);
    assert order[..|order|] == order;
    var states := DeriveUpTo(g, facts, order);
    forall n | n in g.nodes ensures n in states && states[n] == Rule(g, facts, states, n) {
      assert n in order;
      var j :| 0 <= j < |order| && order[j] == n;
    }
    forall n | n in states ensures n in g.nodes {
      assert n in Before(order, |order|);
    }
  }

  // ----- the controller's turns -----

  datatype Controller = Controller(facts: Facts, jobs: set<Key>, states: States)

  function Restrict(facts: Facts, keys: set<Key>): Facts {
    map k | k in facts && k in keys :: facts[k]
  }

  /** Everything is derived again: what nobody demands is dropped, and a job runs for each fact
      that is demanded and not there. */
  function Turn(g: Wired, facts: Facts, order: seq<Node>): Controller
    requires forall n :: n in order ==> n in g.nodes
  {
    var states := DeriveUpTo(g, facts, order);
    var used := Used(g, facts, states);
    Controller(Restrict(facts, used), used - facts.Keys, states)
  }

  /** A fact arrives, or one of a job that is gone does; facts are forgotten, to be demanded anew.
      Each turn may walk the graph in another order. */
  datatype Move = Accept(key: Key, order: seq<Node>) | Forget(keys: set<Key>, order: seq<Node>)

  ghost predicate Possible(g: Wired, m: Move) { Ordered(g, m.order) }

  function Next(g: Wired, c: Controller, truth: Key -> Fact, m: Move): Controller
    requires forall n :: n in m.order ==> n in g.nodes
  {
    match m
    case Accept(k, order) => if k !in c.jobs then c else Turn(g, c.facts[k := truth(k)], order)
    case Forget(keys, order) => Turn(g, map k | k in c.facts && k !in keys :: c.facts[k], order)
  }

  ghost predicate True(facts: Facts, truth: Key -> Fact) {
    forall k :: k in facts ==> facts[k] == truth(k)
  }

  /** After a turn the states solve the rules, and the jobs are those of the missing facts. */
  ghost predicate Derived(g: Wired, c: Controller, truth: Key -> Fact) {
    && True(c.facts, truth) && Solution(g, c.facts, c.states)
    && c.jobs == Used(g, c.facts, c.states) - c.facts.Keys
  }

  lemma TurnIsDerived(g: Wired, facts: Facts, order: seq<Node>, truth: Key -> Fact)
    requires Ordered(g, order) && True(facts, truth)
    ensures (forall n :: n in order ==> n in g.nodes) && Derived(g, Turn(g, facts, order), truth)
  {
    DerivedIsSolution(g, facts, order);
    var states := DeriveUpTo(g, facts, order);
    var used := Used(g, facts, states);
    var kept := Restrict(facts, used);
    RestrictedSolves(g, facts, kept, states);
  }

  lemma RestrictedSolves(g: Wired, facts: Facts, kept: Facts, states: States)
    requires Solution(g, facts, states) && Agree(facts, kept, Used(g, facts, states))
    ensures Solution(g, kept, states) && Used(g, kept, states) == Used(g, facts, states)
  {
    forall n | n in g.nodes
      ensures Rule(g, facts, states, n) == Rule(g, kept, states, n)
        && Demands(g, facts, states, n) == Demands(g, kept, states, n) {
      assert forall k :: k in Demands(g, facts, states, n) ==> k in Used(g, facts, states);
      hide Rule, Demands;
      RuleReads(g, facts, kept, states, states, n);
    }
    hide Rule, Demands;
  }

  lemma NextIsDerived(g: Wired, c: Controller, truth: Key -> Fact, m: Move)
    requires Derived(g, c, truth) && Possible(g, m)
    ensures (forall n :: n in m.order ==> n in g.nodes) && Derived(g, Next(g, c, truth, m), truth)
  {
    hide Turn, Solution, Used;
    assert forall n :: n in m.order ==> n in g.nodes by { assert Ordered(g, m.order); }
    match m {
      case Accept(k, order) =>
        if k in c.jobs {
          TurnIsDerived(g, c.facts[k := truth(k)], order, truth);
        }
      case Forget(keys, order) => TurnIsDerived(g, map k | k in c.facts && k !in keys :: c.facts[k], order, truth);
    }
  }

  ghost predicate AllPossible(g: Wired, moves: seq<Move>) {
    forall i :: 0 <= i < |moves| ==> Possible(g, moves[i])
  }

  ghost function Played(g: Wired, c: Controller, truth: Key -> Fact, moves: seq<Move>): Controller
    requires AllPossible(g, moves)
    decreases |moves|
  {
    if moves == [] then c
    else
      assert Possible(g, moves[0]);
      Played(g, Next(g, c, truth, moves[0]), truth, moves[1..])
  }

  lemma {:induction false} EveryRunIsDerived(g: Wired, c: Controller, truth: Key -> Fact, moves: seq<Move>)
    requires Derived(g, c, truth) && AllPossible(g, moves)
    ensures Derived(g, Played(g, c, truth, moves), truth)
    decreases |moves|
  {
    if moves != [] {
      assert Possible(g, moves[0]);
      NextIsDerived(g, c, truth, moves[0]);
      hide Derived, Next;
      EveryRunIsDerived(g, Next(g, c, truth, moves[0]), truth, moves[1..]);
    }
  }

  lemma MergedSolves(g: Wired, order: seq<Node>, c: Controller, more: Facts, truth: Key -> Fact)
    requires Ordered(g, order) && Derived(g, c, truth) && c.jobs == {} && True(more, truth) && c.facts.Keys <= more.Keys
    ensures (forall n :: n in order ==> n in g.nodes) && c.states == DeriveUpTo(g, more, order)
  {
    DerivedIsSolution(g, more, order);
    assert Agree(c.facts, more, Used(g, c.facts, c.states)) by {
      forall k | k in Used(g, c.facts, c.states) ensures k in c.facts {
        assert k !in c.jobs;
      }
    }
    hide Used, Solution, DeriveUpTo;
    OneSolution(g, order, c.facts, more, c.states, DeriveUpTo(g, more, order));
  }

  /** Confluence. Two controllers on the same graph, each after any turns in any order, with
      whatever facts forgotten and demanded again on the way: when neither has a job left, all
      their nodes are in the same state. */
  lemma Confluence(g: Wired, order: seq<Node>, a: Controller, b: Controller, truth: Key -> Fact, first: seq<Move>,
      second: seq<Move>)
    requires Ordered(g, order) && Derived(g, a, truth) && Derived(g, b, truth) && AllPossible(g, first)
    requires AllPossible(g, second)
    requires Played(g, a, truth, first).jobs == {} && Played(g, b, truth, second).jobs == {}
    ensures Played(g, a, truth, first).states == Played(g, b, truth, second).states
  {
    var c, d := Played(g, a, truth, first), Played(g, b, truth, second);
    EveryRunIsDerived(g, a, truth, first);
    EveryRunIsDerived(g, b, truth, second);
    var merged := c.facts + d.facts;
    assert True(merged, truth);
    hide Played;
    MergedSolves(g, order, c, merged, truth);
    MergedSolves(g, order, d, merged, truth);
  }

  // ----- a value, once shown, is the final one -----

  lemma {:induction false} FollowStays(f: Facts, h: Facts, c: Checksum, runs: seq<Run>)
    requires forall k :: k in f ==> k in h && h[k] == f[k]
    ensures Follow(f, c, runs).Reached? ==> Follow(h, c, runs) == Follow(f, c, runs)
    decreases |runs|
  {
    if runs != [] && runs[0].legal && Convert(runs[0].expression, c) in f && f[Convert(runs[0].expression, c)].Value? {
      FollowStays(f, h, f[Convert(runs[0].expression, c)].checksum, runs[1..]);
    }
  }

  /** What is complete here is complete there, with the same value. */
  ghost predicate Extends(f: Facts, h: Facts, s: States, t: States, edges: set<Edge>) {
    && (forall k :: k in f ==> k in h && h[k] == f[k])
    && (forall e :: e in edges && StateAt(s, e.source).Complete? ==> StateAt(t, e.source) == StateAt(s, e.source))
  }

  lemma DeliveryStays(f: Facts, h: Facts, s: States, t: States, edges: set<Edge>, edge: Edge)
    requires Extends(f, h, s, t, edges) && edge in edges
    ensures Delivers(f, s, edge).Ready? ==> Delivers(h, t, edge) == Delivers(f, s, edge)
  {
    var st := StateAt(s, edge.source);
    if st.Complete? {
      FollowStays(f, h, st.checksum, edge.runs);
    }
  }

  lemma LinkedStays(f: Facts, h: Facts, s: States, t: States, edge: Edge, own: seq<Run>)
    requires Extends(f, h, s, t, {edge})
    ensures LinkedState(f, s, edge, own).Complete? ==> LinkedState(h, t, edge, own) == LinkedState(f, s, edge, own)
  {
    DeliveryStays(f, h, s, t, {edge}, edge);
    if Delivers(f, s, edge).Ready? {
      FollowStays(f, h, Delivers(f, s, edge).checksum, own);
    }
  }

  lemma SlotStays(f: Facts, h: Facts, s: States, t: States, edges: set<Edge>, slot: Slot)
    requires Extends(f, h, s, t, edges) && slot.edge in edges
    ensures SlotProgress(f, s, slot).Reached? ==> SlotProgress(h, t, slot) == SlotProgress(f, s, slot)
  {
    DeliveryStays(f, h, s, t, edges, slot.edge);
    if Delivers(f, s, slot.edge).Ready? {
      FollowStays(f, h, Delivers(f, s, slot.edge).checksum, slot.own);
    }
  }

  lemma JoinedStays(f: Facts, h: Facts, s: States, t: States, root: Stem, own: seq<Run>, slots: seq<Slot>)
    requires Extends(f, h, s, t, EdgesOf(Joined(root.celltype, root.value, own, slots)))
    ensures JoinedState(f, s, root, own, slots).Complete? ==>
      JoinedState(h, t, root, own, slots) == JoinedState(f, s, root, own, slots)
  {
    if JoinedState(f, s, root, own, slots).Complete? {
      forall i | 0 <= i < |slots| ensures SlotProgress(h, t, slots[i]) == SlotProgress(f, s, slots[i]) {
        assert slots[i] in slots;
        SlotStays(f, h, s, t, EdgesOf(Joined(root.celltype, root.value, own, slots)), slots[i]);
      }
      FaultIsNotReached(h, t, slots);
      FaultIsNotReached(f, s, slots);
      assert AllReached(h, t, slots);
      assert Members(f, s, slots) == Members(h, t, slots);
      if root.value.Some? {
        FollowStays(f, h, root.value.value, own);
      }
    }
  }

  lemma SupplyStays(f: Facts, h: Facts, s: States, t: States, edges: set<Edge>, pin: Pin)
    requires Extends(f, h, s, t, edges) && InputEdges(pin.input) <= edges
    ensures !SupplyOf(f, s, pin).Lacks? ==> SupplyOf(h, t, pin) == SupplyOf(f, s, pin)
  {
    match pin.input {
      case Missing =>
      case Constant(c) => FollowStays(f, h, c, pin.own);
      case FromEdge(edge) =>
        assert edge in InputEdges(pin.input);
        DeliveryStays(f, h, s, t, edges, edge);
        if Delivers(f, s, edge).Ready? {
          FollowStays(f, h, Delivers(f, s, edge).checksum, pin.own);
        }
    }
  }

  lemma {:induction false} PinsStay(f: Facts, h: Facts, s: States, t: States, edges: set<Edge>, pins: seq<Pin>)
    requires Extends(f, h, s, t, edges) && forall i :: 0 <= i < |pins| ==> InputEdges(pins[i].input) <= edges
    ensures !Worst(f, s, pins).Lacks? ==> !Worst(h, t, pins).Lacks? && Arguments(h, t, pins) == Arguments(f, s, pins)
  {
    if pins != [] {
      SupplyStays(f, h, s, t, edges, pins[0]);
      PinsStay(f, h, s, t, edges, pins[1..]);
    }
  }

  lemma TransformerStays(f: Facts, h: Facts, s: States, t: States, n: Node, body: Body)
    requires body.Transformer? && Extends(f, h, s, t, EdgesOf(body))
    ensures LocalRule(f, s, n, body, []).Complete? ==> LocalRule(h, t, n, body, []) == LocalRule(f, s, n, body, [])
  {
    var all, edges := [CodePin(body.code)] + body.pins, EdgesOf(body);
    assert all[0] == CodePin(body.code) && all[1..] == body.pins;
    forall i | 0 <= i < |all| ensures InputEdges(all[i].input) <= edges {
      if all[i].input.FromEdge? {
        InputIsAnEdge(body, i);
      }
    }
    forall i | 0 <= i < |body.pins| ensures InputEdges(body.pins[i].input) <= edges {
      assert all[i + 1] == body.pins[i];
    }
    hide EdgesOf, SupplyOf, Arguments;
    PinsStay(f, h, s, t, edges, all);
    PinsStay(f, h, s, t, edges, body.pins);
    SupplyStays(f, h, s, t, edges, CodePin(body.code));
  }

  lemma LocalCompleteStays(f: Facts, h: Facts, s: States, t: States, n: Node, body: Body, own: seq<Run>)
    requires Extends(f, h, s, t, EdgesOf(body))
    ensures LocalRule(f, s, n, body, own).Complete? ==> LocalRule(h, t, n, body, own) == LocalRule(f, s, n, body, own)
  {
    match body {
      case Sick(_, _) =>
      case Producer(_, value, own) =>
        if value.Some? {
          FollowStays(f, h, value.value, own);
        }
      case Linked(_, edge, _) => LinkedStays(f, h, s, t, edge, own);
      case Joined(u, value, own, slots) => JoinedStays(f, h, s, t, Stem(u, value), own, slots);
      case Transformer(_, _, _, _) => TransformerStays(f, h, s, t, n, body);
    }
  }

  /** A cell that is fed as a whole has a value only if its source has one. */
  ghost predicate Grounded(g: Wired, s: States) {
    forall n :: n in g.nodes && g.nodes[n].Linked? && StateAt(s, n).Complete? ==>
      StateAt(s, g.nodes[n].edge.source).Complete?
  }

  lemma SolutionIsGrounded(g: Wired, facts: Facts, s: States)
    requires Solution(g, facts, s)
    ensures Grounded(g, s)
  {
    forall n | n in g.nodes && g.nodes[n].Linked? && StateAt(s, n).Complete?
      ensures StateAt(s, g.nodes[n].edge.source).Complete? {
      assert s[n] == Rule(g, facts, s, n);
      hide Follow, ProjectionRuns, Fused;
    }
  }

  lemma {:induction false} FusedStays(g: Wired, s: States, t: States, n: Node, path: R.Path, seen: set<Node>)
    requires Grounded(g, s) && StateAt(s, n).Complete?
    requires forall m :: m in Chain(g, n, seen) && StateAt(s, m).Complete? ==> StateAt(t, m) == StateAt(s, m)
    ensures StateAt(t, n) == StateAt(s, n) && Fused(g, s, n, path, seen) == Fused(g, t, n, path, seen)
    decreases g.nodes.Keys - seen
  {
    assert n in Chain(g, n, seen);
    var up := Upward(g, n);
    if up.Some? && n !in seen && up.value !in seen + {n} {
      assert up.value in Chain(g, up.value, seen + {n});
      FusedStays(g, s, t, up.value, g.nodes[n].edge.path + path, seen + {n});
    }
  }

  lemma CompleteStays(g: Wired, f: Facts, h: Facts, s: States, t: States, n: Node)
    requires n in g.nodes && Grounded(g, s) && forall k :: k in f ==> k in h && h[k] == f[k]
    requires forall m :: m in Reads(g, g.nodes[n]) && StateAt(s, m).Complete? ==> StateAt(t, m) == StateAt(s, m)
    ensures Rule(g, f, s, n).Complete? ==> Rule(g, h, t, n) == Rule(g, f, s, n)
  {
    var body := g.nodes[n];
    if ReadsThrough(body) && StateAt(s, body.edge.source).Complete? {
      FusedStays(g, s, t, body.edge.source, body.edge.path, {});
      assert Rooted(g, s, body) == Rooted(g, t, body);
    } else if ReadsThrough(body) {
      assert Rooted(g, s, body) == body;
      assert !LinkedState(f, s, body.edge, OwnOf(g, body)).Complete?;
    }
    forall e | e in EdgesOf(Rooted(g, s, body)) && StateAt(s, e.source).Complete?
      ensures StateAt(t, e.source) == StateAt(s, e.source) {
      assert e in EdgesOf(body) && e.source in Sources(body);
    }
    hide LocalRule, Fused, EdgesOf, Chain;
    LocalCompleteStays(f, h, s, t, n, Rooted(g, s, body), OwnOf(g, body));
  }

  lemma {:induction false} ValuesStay(g: Wired, order: seq<Node>, f: Facts, h: Facts, s: States, t: States, i: nat)
    requires Ordered(g, order) && Solution(g, f, s) && Solution(g, h, t) && i <= |order|
    requires forall k :: k in f ==> k in h && h[k] == f[k]
    ensures forall j :: 0 <= j < i ==> StaysAt(s, t, order[j])
    decreases i
  {
    hide *;
    if i > 0 {
      ValuesStay(g, order, f, h, s, t, i - 1);
      NextStays(g, order, f, h, s, t, i - 1);
    }
  }

  ghost predicate StaysAt(s: States, t: States, n: Node) {
    n in s && n in t && (s[n].Complete? ==> t[n] == s[n])
  }

  lemma NextStays(g: Wired, order: seq<Node>, f: Facts, h: Facts, s: States, t: States, i: nat)
    requires Ordered(g, order) && Solution(g, f, s) && Solution(g, h, t) && i < |order|
    requires (forall k :: k in f ==> k in h && h[k] == f[k]) && forall j :: 0 <= j < i ==> StaysAt(s, t, order[j])
    ensures StaysAt(s, t, order[i])
  {
    var n := order[i];
    assert n in order && n in g.nodes;
    ReadsComeBefore(g, order, i);
    SolutionIsGrounded(g, f, s);
    assert s[n] == Rule(g, f, s, n) && t[n] == Rule(g, h, t, n);
    hide Rule, Reads, Grounded, Ordered, Solution;
    forall m | m in Reads(g, g.nodes[n]) && StateAt(s, m).Complete? ensures StateAt(t, m) == StateAt(s, m) {
      assert m in Before(order, i);
      var j :| 0 <= j < i && order[..i][j] == m;
      assert StaysAt(s, t, order[j]);
    }
    CompleteStays(g, f, h, s, t, n);
  }

  /** A value that a node shows at any time, while facts are still missing, is the value it shows
      when all are in. */
  lemma ShownValuesAreFinal(g: Wired, order: seq<Node>, early: Controller, late: Controller, truth: Key -> Fact,
      n: Node)
    requires Ordered(g, order) && Derived(g, early, truth) && Derived(g, late, truth) && late.jobs == {}
    requires n in g.nodes && early.states[n].Complete?
    ensures late.states[n] == early.states[n]
  {
    var merged := early.facts + late.facts;
    assert True(merged, truth);
    MergedSolves(g, order, late, merged, truth);
    DerivedIsSolution(g, merged, order);
    hide DeriveUpTo, Rule;
    ValuesStay(g, order, early.facts, merged, early.states, late.states, |order|);
    assert n in order;
    var j :| 0 <= j < |order| && order[j] == n;
  }
}
