/** What states become over the turns of a graph in which facts come in: a value is final, and what
    is failed, ill-formed or blocked gets no value any more. So a blocked joined cell, of whose parts
    none's conversion is still to come, stays blocked. */
module BlockedRuns {
  import opened Wrappers
  import opened Dag
  import opened Derivation
  import opened DerivedGraphs
  import opened DerivedCauses
  import opened BlockedCells
  import R = Recipes

  predicate Dead(s: State) { !s.Complete? && !Works(s) }

  // ----- rule by rule -----

  ghost predicate AllBecome(s: States, t: States, edges: set<Edge>) {
    forall e :: e in edges ==> Becomes(StateAt(s, e.source), StateAt(t, e.source))
  }

  lemma LinkedStaysDead(f: Facts, h: Facts, s: States, t: States, edge: Edge, own: seq<Run>)
    requires Grows(f, h) && Becomes(StateAt(s, edge.source), StateAt(t, edge.source))
    requires Dead(LinkedState(f, s, edge, own))
    ensures Dead(LinkedState(h, t, edge, own))
  {
    var d := Delivers(f, s, edge);
    if d.Ready? {
      var c := StateAt(s, edge.source).checksum;
      FollowSettled(f, h, c, edge.runs);
      FollowSettled(f, h, d.checksum, own);
    } else {
      DeadStays(f, h, s, t, edge);
      hide Delivers, Follow;
    }
  }

  lemma SlotStaysBroke(f: Facts, h: Facts, s: States, t: States, slot: Slot)
    requires Grows(f, h) && Becomes(StateAt(s, slot.edge.source), StateAt(t, slot.edge.source))
    ensures !SlotProgress(f, s, slot).Stuck? ==> SlotProgress(h, t, slot) == SlotProgress(f, s, slot)
  {
    var d := Delivers(f, s, slot.edge);
    if d.Ready? {
      FollowSettled(f, h, StateAt(s, slot.edge.source).checksum, slot.edge.runs);
      FollowSettled(f, h, d.checksum, slot.own);
    }
  }

  lemma JoinedStaysDead(f: Facts, h: Facts, s: States, t: States, root: Stem, own: seq<Run>,
      slots: seq<Slot>)
    requires Grows(f, h) && MovesOn(s, t, slots) && Dead(JoinedState(f, s, root, own, slots))
    ensures Dead(JoinedState(h, t, root, own, slots))
  {
    FaultIsNotReached(f, s, slots);
    FaultIsNotReached(h, t, slots);
    AwryIsStatic(f, h, s, t, slots);
    SomeReasonSlot(f, s, slots);
    SomeReasonSlot(h, t, slots);
    hide Delivers, SlotProgress, SlotReason, SlotFault, Reasons, Becomes, Follow, Members;
    forall i | 0 <= i < |slots|
      ensures !SlotProgress(f, s, slots[i]).Stuck? ==> SlotProgress(h, t, slots[i]) == SlotProgress(f, s, slots[i])
    {
      SlotStaysBroke(f, h, s, t, slots[i]);
    }
    if AllReached(f, s, slots) {
      SameMembers(f, h, s, t, slots);
      if root.value.Some? {
        FollowSettled(f, h, root.value.value, own);
      }
    } else if !AnyAwry(f, s, slots) && !SlotFault(f, s, slots).Some? {
      var i :| 0 <= i < |slots| && SlotReason(Delivers(f, s, slots[i].edge)).Some?;
      ReasonStays(f, h, s, t, slots[i]);
    } else if AnyAwry(f, s, slots) {
      AwryIsNotReached(h, t, slots);
    }
  }

  lemma SameMembers(f: Facts, h: Facts, s: States, t: States, slots: seq<Slot>)
    requires AllReached(f, s, slots)
    requires forall i :: 0 <= i < |slots| ==> SlotProgress(h, t, slots[i]) == SlotProgress(f, s, slots[i])
    ensures AllReached(h, t, slots) && Members(h, t, slots) == Members(f, s, slots)
  {
    hide SlotProgress;
  }

  lemma AwryIsNotReached(f: Facts, s: States, slots: seq<Slot>)
    requires AnyAwry(f, s, slots)
    ensures !AllReached(f, s, slots)
  {
    var i :| 0 <= i < |slots| && Delivers(f, s, slots[i].edge).Awry?;
    assert !SlotProgress(f, s, slots[i]).Reached?;
  }

  /** An input that is lacking for good. */
  predicate Gone(s: Supply) { s.Lacks? && s.lack != Later }

  lemma TakenStays(f: Facts, h: Facts, pin: Pin, c: Checksum)
    requires Grows(f, h)
    ensures Gone(Taken(f, pin, c)) ==> Gone(Taken(h, pin, c))
    ensures !Taken(f, pin, c).Lacks? ==> Taken(h, pin, c) == Taken(f, pin, c)
  {
    FollowSettled(f, h, c, pin.own);
  }

  lemma SupplyStaysGone(f: Facts, h: Facts, s: States, t: States, edges: set<Edge>, pin: Pin)
    requires Grows(f, h) && AllBecome(s, t, edges) && InputEdges(pin.input) <= edges
    ensures Gone(SupplyOf(f, s, pin)) ==> Gone(SupplyOf(h, t, pin))
  {
    match pin.input {
      case Missing =>
      case Constant(c) => TakenStays(f, h, pin, c);
      case FromEdge(edge) =>
        assert edge in InputEdges(pin.input);
        var d := Delivers(f, s, edge);
        if d.Ready? {
          FollowSettled(f, h, StateAt(s, edge.source).checksum, edge.runs);
          TakenStays(f, h, pin, d.checksum);
        } else if !d.Pending? {
          DeadStays(f, h, s, t, edge);
        }
        hide Follow, Taken;
    }
  }

  lemma BecomingExtends(f: Facts, h: Facts, s: States, t: States, edges: set<Edge>)
    requires Grows(f, h) && AllBecome(s, t, edges)
    ensures DerivedGraphs.Extends(f, h, s, t, edges)
  {
  }

  lemma TransformerStaysDead(f: Facts, h: Facts, s: States, t: States, n: Node, body: Body)
    requires body.Transformer? && Grows(f, h) && AllBecome(s, t, EdgesOf(body))
    requires Dead(LocalRule(f, s, n, body, []))
    ensures Dead(LocalRule(h, t, n, body, []))
  {
    var all, edges := [CodePin(body.code)] + body.pins, EdgesOf(body);
    assert all[0] == CodePin(body.code) && all[1..] == body.pins;
    forall i | 0 <= i < |all| ensures InputEdges(all[i].input) <= edges {
      if all[i].input.FromEdge? {
        InputIsAnEdge(body, i);
      }
    }
    forall i | 0 <= i < |body.pins| ensures InputEdges(body.pins[i].input) <= edges {
      assert all[i + 1] == body.pins[i];
    }
    BecomingExtends(f, h, s, t, edges);
    hide *;
    if Worst(f, s, all).Lacks? {
      WorstStaysGone(f, h, s, t, edges, all);
    } else {
      PinsStay(f, h, s, t, edges, all);
      PinsStay(f, h, s, t, edges, body.pins);
      SupplyStays(f, h, s, t, edges, all[0]);
    }
    DeadTransformer(f, h, s, t, n, body);
  }

  lemma DeadTransformer(f: Facts, h: Facts, s: States, t: States, n: Node, body: Body)
    requires body.Transformer? && Grows(f, h) && Dead(LocalRule(f, s, n, body, []))
    requires var all := [CodePin(body.code)] + body.pins;
             if Worst(f, s, all).Lacks? then Gone(Worst(f, s, all)) ==> Gone(Worst(h, t, all))
             else
               && !Worst(h, t, all).Lacks? && SupplyOf(h, t, all[0]) == SupplyOf(f, s, all[0])
               && (!Worst(f, s, body.pins).Lacks? ==> Arguments(h, t, body.pins) == Arguments(f, s, body.pins))
    ensures Dead(LocalRule(h, t, n, body, []))
  {
    hide Worst, SupplyOf, Arguments;
    var all := [CodePin(body.code)] + body.pins;
    if !Worst(f, s, all).Lacks? {
      PinsLackNothing(f, s, body);
    }
  }

  lemma PinsLackNothing(f: Facts, s: States, body: Body)
    requires body.Transformer? && !Worst(f, s, [CodePin(body.code)] + body.pins).Lacks?
    ensures !Worst(f, s, body.pins).Lacks?
  {
    var all := [CodePin(body.code)] + body.pins;
    assert all[1..] == body.pins;
    hide SupplyOf;
  }

  lemma WorstStaysGone(f: Facts, h: Facts, s: States, t: States, edges: set<Edge>, pins: seq<Pin>)
    requires Grows(f, h) && AllBecome(s, t, edges) && forall i :: 0 <= i < |pins| ==> InputEdges(pins[i].input) <= edges
    ensures Gone(Worst(f, s, pins)) ==> Gone(Worst(h, t, pins))
  {
    WorstIsOneOf(f, s, pins);
    WorstIsOneOf(h, t, pins);
    hide SupplyOf, Worst, AllBecome, InputEdges;
    if Gone(Worst(f, s, pins)) {
      var i :| 0 <= i < |pins| && SupplyOf(f, s, pins[i]) == Worst(f, s, pins);
      SupplyStaysGone(f, h, s, t, edges, pins[i]);
    }
  }

  lemma LocalStaysDead(f: Facts, h: Facts, s: States, t: States, n: Node, body: Body, own: seq<Run>)
    requires Grows(f, h) && AllBecome(s, t, EdgesOf(body)) && (own != [] ==> body.Linked?)
    requires Dead(LocalRule(f, s, n, body, own))
    ensures Dead(LocalRule(h, t, n, body, own))
  {
    hide LinkedState, JoinedState, TransformerState;
    match body {
      case Sick(_, _) =>
      case Producer(_, value, own) =>
        if value.Some? {
          FollowSettled(f, h, value.value, own);
        }
      case Linked(_, edge, _) =>
        assert edge in EdgesOf(body);
        LinkedStaysDead(f, h, s, t, edge, own);
      case Joined(u, value, own, slots) =>
        forall i | 0 <= i < |slots|
          ensures Becomes(StateAt(s, slots[i].edge.source), StateAt(t, slots[i].edge.source)) {
          assert slots[i] in slots && slots[i].edge in EdgesOf(body);
        }
        JoinedStaysDead(f, h, s, t, Stem(u, value), own, slots);
      case Transformer(_, _, _, _) => TransformerStaysDead(f, h, s, t, n, body);
    }
  }

  // ----- a whole graph -----

  /** A node whose rule reads states that have moved on has moved on itself. */
  lemma RuleMovesOn(g: Wired, f: Facts, h: Facts, s: States, t: States, n: Node)
    requires n in g.nodes && Grounded(g, s) && Grows(f, h)
    requires forall m :: m in Reads(g, g.nodes[n]) ==> Becomes(StateAt(s, m), StateAt(t, m))
    ensures Becomes(Rule(g, f, s, n), Rule(g, h, t, n))
  {
    var body := g.nodes[n];
    CompleteStays(g, f, h, s, t, n);
    if Dead(Rule(g, f, s, n)) {
      SourcesMoveOn(g, s, t, body);
      if ReadsThrough(body) {
        ReadsThroughMovesOn(g, f, h, s, t, n);
      } else {
        assert Rooted(g, s, body) == body == Rooted(g, t, body);
        LocalStaysDead(f, h, s, t, n, body, OwnOf(g, body));
      }
    }
  }

  lemma SourcesMoveOn(g: Wired, s: States, t: States, body: Body)
    requires forall m :: m in Reads(g, body) ==> Becomes(StateAt(s, m), StateAt(t, m))
    ensures AllBecome(s, t, EdgesOf(body))
  {
    forall e | e in EdgesOf(body) ensures Becomes(StateAt(s, e.source), StateAt(t, e.source)) {
      assert e.source in Sources(body);
    }
  }

  lemma ReadsThroughMovesOn(g: Wired, f: Facts, h: Facts, s: States, t: States, n: Node)
    requires n in g.nodes && Grounded(g, s) && Grows(f, h) && ReadsThrough(g.nodes[n])
    requires forall m :: m in Reads(g, g.nodes[n]) ==> Becomes(StateAt(s, m), StateAt(t, m))
    requires Dead(Rule(g, f, s, n))
    ensures Dead(Rule(g, h, t, n))
  {
    var body := g.nodes[n];
    SourcesMoveOn(g, s, t, body);
    assert body.edge in EdgesOf(body);
    if body.edge.wiring.Sound? && StateAt(s, body.edge.source).Complete? {
      FusedStays(g, s, t, body.edge.source, body.edge.path, {});
      var root := Fused(g, s, body.edge.source, body.edge.path, {});
      FollowSettled(f, h, root.checksum, ProjectionRuns(g, root.celltype, root.path, body.celltype, body.check));
      hide Fused, ProjectionRuns, Follow;
    } else {
      assert Rooted(g, s, body) == body;
      assert !(body.edge.wiring.Sound? && StateAt(t, body.edge.source).Complete?) by {
        assert Dead(LinkedState(f, s, body.edge, OwnOf(g, body)));
      }
      assert Rooted(g, t, body) == body;
      hide LinkedState;
      LocalStaysDead(f, h, s, t, n, body, OwnOf(g, body));
    }
  }

  lemma {:induction false} StatesMoveOn(g: Wired, order: seq<Node>, f: Facts, h: Facts, s: States, t: States, i: nat)
    requires Ordered(g, order) && Solution(g, f, s) && Solution(g, h, t) && i <= |order| && Grows(f, h)
    ensures forall j :: 0 <= j < i ==> Becomes(StateAt(s, order[j]), StateAt(t, order[j]))
    decreases i
  {
    hide *;
    if i > 0 {
      StatesMoveOn(g, order, f, h, s, t, i - 1);
      NextMovesOn(g, order, f, h, s, t, i - 1);
    }
  }

  lemma NextMovesOn(g: Wired, order: seq<Node>, f: Facts, h: Facts, s: States, t: States, i: nat)
    requires Ordered(g, order) && Solution(g, f, s) && Solution(g, h, t) && i < |order| && Grows(f, h)
    requires forall j :: 0 <= j < i ==> Becomes(StateAt(s, order[j]), StateAt(t, order[j]))
    ensures Becomes(StateAt(s, order[i]), StateAt(t, order[i]))
  {
    var n := order[i];
    assert n in order && n in g.nodes;
    ReadsComeBefore(g, order, i);
    SolutionIsGrounded(g, f, s);
    assert s[n] == Rule(g, f, s, n) && t[n] == Rule(g, h, t, n) && n in s && n in t;
    hide Rule, Reads, Grounded, Ordered, Solution, Becomes;
    forall m | m in Reads(g, g.nodes[n]) ensures Becomes(StateAt(s, m), StateAt(t, m)) {
      assert m in Before(order, i);
      var j :| 0 <= j < i && order[..i][j] == m;
      assert order[j] == m;
    }
    RuleMovesOn(g, f, h, s, t, n);
  }

  /** As facts come in, every node's state moves on: values are final, and what has neither a value
      nor anything to wait for gets neither. */
  lemma EveryStateMovesOn(g: Wired, order: seq<Node>, f: Facts, h: Facts, s: States, t: States, n: Node)
    requires Ordered(g, order) && Solution(g, f, s) && Solution(g, h, t) && Grows(f, h)
    ensures Becomes(StateAt(s, n), StateAt(t, n))
  {
    StatesMoveOn(g, order, f, h, s, t, |order|);
    if n in g.nodes {
      assert n in order;
      var j :| 0 <= j < |order| && order[j] == n;
    } else {
      assert n !in s && n !in t;
    }
  }

  // ----- turns -----

  /** The cell is blocked, and no part's conversion is still to come. */
  ghost predicate BlockedForGood(g: Wired, f: Facts, s: States, n: Node) {
    && n in g.nodes && g.nodes[n].Joined? && StateAt(s, n).BlockedAt?
    && forall i :: 0 <= i < |g.nodes[n].slots| ==> !Exposed(f, s, g.nodes[n].slots[i])
  }

  lemma GrowthStaysBlocked(g: Wired, order: seq<Node>, f: Facts, h: Facts, s: States, t: States, n: Node)
    requires Ordered(g, order) && Solution(g, f, s) && Solution(g, h, t) && Grows(f, h)
    requires BlockedForGood(g, f, s, n)
    ensures BlockedForGood(g, h, t, n)
  {
    var body := g.nodes[n];
    assert s[n] == Rule(g, f, s, n) && t[n] == Rule(g, h, t, n);
    assert Rooted(g, s, body) == body == Rooted(g, t, body);
    hide Ordered, Solution, JoinedState, Exposed, Becomes;
    forall i | 0 <= i < |body.slots|
      ensures Becomes(StateAt(s, body.slots[i].edge.source), StateAt(t, body.slots[i].edge.source)) {
      EveryStateMovesOn(g, order, f, h, s, t, body.slots[i].edge.source);
    }
    StaysBlocked(f, h, s, t, Stem(body.celltype, body.root), body.own, body.slots);
  }

  /** Where no source works, the condition is exact over the graph as well. */
  lemma GraphBlockedIff(g: Wired, order: seq<Node>, f: Facts, s: States, n: Node)
    requires Ordered(g, order) && Solution(g, f, s) && n in g.nodes && g.nodes[n].Joined? && StateAt(s, n).BlockedAt?
    requires forall i :: 0 <= i < |g.nodes[n].slots| ==> !Works(StateAt(s, g.nodes[n].slots[i].edge.source))
    ensures (forall h, t :: Grows(f, h) && Solution(g, h, t) ==> StateAt(t, n).BlockedAt?) <==>
      BlockedForGood(g, f, s, n)
  {
    if BlockedForGood(g, f, s, n) {
      hide BlockedForGood;
      forall h, t | Grows(f, h) && Solution(g, h, t) ensures StateAt(t, n).BlockedAt? {
        GrowthStaysBlocked(g, order, f, h, s, t, n);
        assert BlockedForGood(g, h, t, n) ==> StateAt(t, n).BlockedAt? by { BlockedIsBlocked(g, h, t, n); }
      }
    } else {
      var slots := g.nodes[n].slots;
      var i :| 0 <= i < |slots| && Exposed(f, s, slots[i]);
      var h, t := GraphCanFail(g, order, f, s, n, i);
    }
  }

  lemma BlockedIsBlocked(g: Wired, f: Facts, s: States, n: Node)
    ensures BlockedForGood(g, f, s, n) ==> StateAt(s, n).BlockedAt?
  {
  }

  lemma GraphCanFail(g: Wired, order: seq<Node>, f: Facts, s: States, n: Node, i: nat) returns (h: Facts, t: States)
    requires Ordered(g, order) && Solution(g, f, s) && n in g.nodes && g.nodes[n].Joined? && i < |g.nodes[n].slots|
    requires Exposed(f, s, g.nodes[n].slots[i]) && !Works(StateAt(s, g.nodes[n].slots[i].edge.source))
    ensures Grows(f, h) && Solution(g, h, t) && StateAt(t, n).Failed?
  {
    var body := g.nodes[n];
    var slot := body.slots[i];
    var m := slot.edge.source;
    ExposedIsReady(f, s, slot);
    h := SlotCanBreak(f, s, slot);
    DerivedIsSolution(g, h, order);
    t := DeriveUpTo(g, h, order);
    hide DeriveUpTo, Ordered, Exposed, SlotProgress, Solution;
    EveryStateMovesOn(g, order, f, h, s, t, m);
    SameSlot(h, s, t, slot);
    BrokenCell(g, h, t, n, i);
  }

  lemma ExposedIsReady(f: Facts, s: States, slot: Slot)
    requires Exposed(f, s, slot) && !Works(StateAt(s, slot.edge.source))
    ensures slot.edge.wiring.Sound? && StateAt(s, slot.edge.source).Complete?
  {
    hide Follow, SlotProgress;
  }

  lemma BrokenCell(g: Wired, h: Facts, t: States, n: Node, i: nat)
    requires Solution(g, h, t) && n in g.nodes && g.nodes[n].Joined? && i < |g.nodes[n].slots|
    requires SlotProgress(h, t, g.nodes[n].slots[i]).Broke?
    ensures StateAt(t, n).Failed?
  {
    var body := g.nodes[n];
    BrokenFails(h, t, Stem(body.celltype, body.root), body.own, body.slots, i);
    assert t[n] == Rule(g, h, t, n);
    JoinedRule(g, h, t, n);
    hide Rule, JoinedState, SlotProgress;
  }

  lemma JoinedRule(g: Wired, f: Facts, s: States, n: Node)
    requires n in g.nodes && g.nodes[n].Joined?
    ensures var body := g.nodes[n];
            Rule(g, f, s, n) == JoinedState(f, s, Stem(body.celltype, body.root), body.own, body.slots)
  {
    hide JoinedState;
  }

  lemma SameSlot(f: Facts, s: States, t: States, slot: Slot)
    requires StateAt(t, slot.edge.source) == StateAt(s, slot.edge.source)
    ensures SlotProgress(f, t, slot) == SlotProgress(f, s, slot)
  {
  }

  lemma BrokenFails(f: Facts, s: States, root: Stem, own: seq<Run>, slots: seq<Slot>, i: nat)
    requires i < |slots| && SlotProgress(f, s, slots[i]).Broke?
    ensures JoinedState(f, s, root, own, slots).Failed?
  {
    FaultIsNotReached(f, s, slots);
    hide SlotProgress;
  }

  /** Purging the facts that nobody demands leaves no part's conversion to come. */
  lemma RestrictedStaysBlocked(g: Wired, f: Facts, s: States, n: Node)
    requires Solution(g, f, s) && BlockedForGood(g, f, s, n)
    ensures BlockedForGood(g, Restrict(f, Used(g, f, s)), s, n)
  {
    var body, r := g.nodes[n], Restrict(f, Used(g, f, s));
    assert s[n] == Rule(g, f, s, n) && Rooted(g, s, body) == body;
    FaultIsNotReached(f, s, body.slots);
    assert Agree(f, r, SlotKeys(f, s, body.slots)) by {
      forall k | k in SlotKeys(f, s, body.slots) ensures k in Used(g, f, s) {
        assert k in Demands(g, f, s, n);
      }
    }
    hide Solution, Demands, Used, SlotKeys, Delivers, SlotProgress, SlotFault, Reasons, Agree, Rule;
    SlotsRead(f, r, s, s, body.slots);
  }

  ghost predicate Accepts(moves: seq<Move>) {
    forall i :: 0 <= i < |moves| ==> moves[i].Accept?
  }

  lemma TurnStaysBlocked(g: Wired, c: Controller, truth: Key -> Fact, k: Key, order: seq<Node>, n: Node)
    requires Derived(g, c, truth) && Ordered(g, order) && BlockedForGood(g, c.facts, c.states, n)
    ensures (forall m :: m in order ==> m in g.nodes)
    ensures var after := Next(g, c, truth, Accept(k, order)); BlockedForGood(g, after.facts, after.states, n)
  {
    DerivedIsSolution(g, c.facts[k := truth(k)], order);
    if k in c.jobs {
      var h := c.facts[k := truth(k)];
      var t := DeriveUpTo(g, h, order);
      assert Grows(c.facts, h);
      hide DeriveUpTo, BlockedForGood, Solution, Used;
      GrowthStaysBlocked(g, order, c.facts, h, c.states, t, n);
      RestrictedStaysBlocked(g, h, t, n);
    }
  }

  /** Over every run of turns in which facts come in, such a cell stays blocked. */
  lemma {:induction false} BlockedStaysOverTurns(g: Wired, c: Controller, truth: Key -> Fact, moves: seq<Move>, n: Node)
    requires Derived(g, c, truth) && AllPossible(g, moves) && Accepts(moves)
    requires BlockedForGood(g, c.facts, c.states, n)
    ensures var late := Played(g, c, truth, moves); BlockedForGood(g, late.facts, late.states, n)
    decreases |moves|
  {
    if moves != [] {
      assert Possible(g, moves[0]) && moves[0].Accept?;
      NextIsDerived(g, c, truth, moves[0]);
      TurnStaysBlocked(g, c, truth, moves[0].key, moves[0].order, n);
      assert Accepts(moves[1..]);
      hide Derived, Next, BlockedForGood;
      BlockedStaysOverTurns(g, Next(g, c, truth, moves[0]), truth, moves[1..], n);
    }
  }

  // ----- a blocked cell that fails -----

  const FIRST := Expression([], R.Mixed, R.Bytes, 0)
  const SECOND := Expression([], R.Bytes, R.Mixed, 0)
  const ORDER: seq<Node> := [0, 1, 2]
  const STEM := Stem(R.Mixed, None)

  /** One part has no value, and the source of the other is still converting its own. */
  function PartsGraph(): Wired {
    var slots := [Slot(0, Edge(1, [], false, Sound, []), []),
      Slot(1, Edge(0, [], false, Sound, []), [Run(SECOND, true, true)])];
    Wired(map[0 := Producer(R.Bytes, Some(1), [Run(FIRST, true, true)]), 1 := Producer(R.Mixed, None, []),
              2 := Joined(R.Mixed, None, [], slots)], {})
  }

  function Truth(k: Key): Fact {
    if k == Convert(FIRST, 1) then Value(2) else Error(5)
  }

  lemma PartsAreOrdered()
    ensures Ordered(PartsGraph(), ORDER) && forall n :: n in ORDER ==> n in PartsGraph().nodes
  {
    var g := PartsGraph();
    assert ORDER[..1] == [0] && ORDER[..2] == [0, 1] && ORDER[..0] == [];
    assert forall n :: n in g.nodes <==> n in ORDER;
    forall i | 0 <= i < |ORDER| ensures Sources(g.nodes[ORDER[i]]) <= Before(ORDER, i) {
    }
  }

  lemma PartsStates(facts: Facts)
    requires forall n :: n in ORDER ==> n in PartsGraph().nodes
    ensures var g := PartsGraph();
            var states := DeriveUpTo(g, facts, ORDER);
            var early := map[0 := Shown(Follow(facts, 1, [Run(FIRST, true, true)])), 1 := Unwired];
            && states == early[2 := JoinedState(facts, early, STEM, [], g.nodes[2].slots)]
            && JoinedState(facts, states, STEM, [], g.nodes[2].slots) == states[2]
  {
    var g := PartsGraph();
    var early := map[0 := Shown(Follow(facts, 1, [Run(FIRST, true, true)])), 1 := Unwired];
    assert ORDER[..2] == [0, 1] && [0, 1][..1] == [0] && [0][..0] == [];
    hide Follow, JoinedState, Shown;
    OneMoreStep(g, facts, [0]);
    OneMoreStep(g, facts, [0, 1]);
    OneMoreStep(g, facts, ORDER);
    assert DeriveUpTo(g, facts, [0, 1]) == early;
    SameJoin(facts, early, early[2 := JoinedState(facts, early, STEM, [], g.nodes[2].slots)], g.nodes[2].slots);
  }

  lemma SameJoin(facts: Facts, s: States, t: States, slots: seq<Slot>)
    requires forall i :: 0 <= i < |slots| ==> StateAt(s, slots[i].edge.source) == StateAt(t, slots[i].edge.source)
    ensures JoinedState(facts, s, STEM, [], slots) == JoinedState(facts, t, STEM, [], slots)
  {
    var keys := JoinDemands(facts, s, STEM, [], slots);
    AgreesWithItself(facts, keys);
    hide *;
    JoinReads(facts, facts, s, t, STEM, [], slots);
  }

  const MADE := Convert(FIRST, 1)
  const JOINED := Convert(SECOND, 2)

  lemma SlotsOf(facts: Facts, states: States)
    ensures var slots := PartsGraph().nodes[2].slots;
            && slots[1..] == [slots[1]] && slots[1..][1..] == []
            && SlotFault(facts, states, slots) ==
                 (match SlotProgress(facts, states, slots[0])
                  case Broke(e, _) => Some(e)
                  case _ => (match SlotProgress(facts, states, slots[1]) case Broke(e, _) => Some(e) case _ => None))
            && (!SlotProgress(facts, states, slots[0]).Broke? ==>
                  EdgeThenOwn(facts, states, slots[1].edge, slots[1].own) <= SlotKeys(facts, states, slots))
  {
    var slots := PartsGraph().nodes[2].slots;
    assert slots[1..] == [slots[1]] && slots[1..][1..] == [];
    assert SlotFault(facts, states, slots[1..][1..]) == None;
    assert SlotKeys(facts, states, slots[1..][1..]) == {};
    hide SlotProgress, EdgeThenOwn;
  }

  lemma PartsAt(facts: Facts, states: States)
    requires StateAt(states, 1) == Unwired && StateAt(states, 0) == Shown(Follow(facts, 1, [Run(FIRST, true, true)]))
    ensures var j := JoinedState(facts, states, STEM, [], PartsGraph().nodes[2].slots);
            && (MADE !in facts ==> j.BlockedAt?)
            && (MADE in facts && facts[MADE] == Value(2) && JOINED !in facts ==> j.BlockedAt?)
            && (MADE in facts && facts[MADE] == Value(2) && JOINED in facts && facts[JOINED] == Error(5) ==>
                  j == Failed(5))
  {
    var slots := PartsGraph().nodes[2].slots;
    SlotsOf(facts, states);
    SomeReasonSlot(facts, states, slots);
    assert [Run(FIRST, true, true)][1..] == [] && [Run(SECOND, true, true)][1..] == [];
    assert Follow(facts, 2, []) == Reached(2) && Follow(facts, 0, []) == Reached(0);
    assert SlotReason(Delivers(facts, states, slots[0].edge)) == Some(ByUnwired);
    assert !AnyAwry(facts, states, slots);
    assert SlotProgress(facts, states, slots[0]) == Stuck;
    hide SlotFault, Reasons, SlotKeys;
  }

  lemma PartsDemand(facts: Facts, states: States)
    requires StateAt(states, 1) == Unwired && StateAt(states, 0) == Shown(Follow(facts, 1, [Run(FIRST, true, true)]))
    ensures MADE in Used(PartsGraph(), facts, states)
    ensures MADE in facts && facts[MADE] == Value(2) ==> JOINED in Used(PartsGraph(), facts, states)
  {
    var g := PartsGraph();
    assert MADE in Demands(g, facts, states, 0);
    if MADE in facts && facts[MADE] == Value(2) {
      var slots := g.nodes[2].slots;
      SlotsOf(facts, states);
      assert [Run(FIRST, true, true)][1..] == [] && Follow(facts, 2, []) == Reached(2);
      assert Delivers(facts, states, slots[1].edge) == Ready(2);
      assert JOINED in Followed(facts, 2, slots[1].own);
      assert JOINED in SlotKeys(facts, states, slots);
      assert JOINED in Demands(g, facts, states, 2);
    }
    hide Demands;
  }

  lemma PartsTurn(facts: Facts)
    requires forall n :: n in ORDER ==> n in PartsGraph().nodes
    ensures var c := Turn(PartsGraph(), facts, ORDER);
            && 2 in c.states && (MADE !in facts ==> c.states[2].BlockedAt? && MADE in c.jobs)
            && (MADE in facts && facts[MADE] == Value(2) ==>
                  && MADE in c.facts && c.facts[MADE] == Value(2)
                  && (JOINED !in facts ==> c.states[2].BlockedAt? && JOINED in c.jobs)
                  && (JOINED in facts && facts[JOINED] == Error(5) ==> c.states[2] == Failed(5)))
  {
    PartsStates(facts);
    var states := DeriveUpTo(PartsGraph(), facts, ORDER);
    PartsAt(facts, states);
    PartsDemand(facts, states);
    hide DeriveUpTo, Used, JoinedState, PartsGraph, Follow;
  }

  /** A run from no facts: the cell is blocked by its first part, and by no part's failure, until the
      source of the other has its value and the conversion of that fails. */
  lemma BlockedCellFails()
    ensures (forall n :: n in ORDER ==> n in PartsGraph().nodes) && Possible(PartsGraph(), Accept(MADE, ORDER))
    ensures var g := PartsGraph();
            var first := Turn(g, map[], ORDER);
            var second := Next(g, first, Truth, Accept(MADE, ORDER));
            var third := Next(g, second, Truth, Accept(JOINED, ORDER));
            && 2 in first.states && first.states[2].BlockedAt? && 2 in second.states && second.states[2].BlockedAt?
            && 2 in third.states && third.states[2] == Failed(5)
  {
    PartsAreOrdered();
    hide Turn;
    var g := PartsGraph();
    var first := Turn(g, map[], ORDER);
    PartsTurn(map[]);
    PartsTurn(first.facts[MADE := Value(2)]);
    NoFactsYet(g);
    var second := Next(g, first, Truth, Accept(MADE, ORDER));
    assert second == Turn(g, first.facts[MADE := Value(2)], ORDER);
    PartsTurn(second.facts[JOINED := Error(5)]);
    assert MADE != JOINED;
  }

  lemma NoFactsYet(g: Wired)
    requires forall n :: n in ORDER ==> n in g.nodes
    ensures Turn(g, map[], ORDER).facts == map[]
  {
  }
}
