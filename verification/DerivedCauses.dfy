/** Why a node has no value: what it waits for, or the defect it goes back to. */
module DerivedCauses {
  import opened Wrappers
  import opened Dag
  import opened Derivation
  import opened DerivedGraphs

  /** A walk upstream: each node of it is a source of the one before. */
  ghost predicate Upstream(g: Wired, walk: seq<Node>) {
    && walk != [] && (forall i :: 0 <= i < |walk| ==> walk[i] in g.nodes)
    && (forall i :: 0 <= i < |walk| - 1 ==> walk[i + 1] in Sources(g.nodes[walk[i]]))
  }

  lemma UpstreamFurther(g: Wired, n: Node, walk: seq<Node>)
    requires n in g.nodes && Upstream(g, walk) && walk[0] in Sources(g.nodes[n])
    ensures Upstream(g, [n] + walk)
  {
    var w := [n] + walk;
    forall i | 0 <= i < |w| - 1 ensures w[i + 1] in Sources(g.nodes[w[i]]) {
      if i > 0 {
        assert w[i] == walk[i - 1] && w[i + 1] == walk[i - 1 + 1];
      }
    }
  }

  // ----- waiting -----

  predicate Works(s: State) { s.Waiting? || s.Computing? }

  /** The node demands a fact that is not there. */
  ghost predicate Lacking(g: Wired, facts: Facts, states: States, n: Node)
    requires n in g.nodes
  {
    SomeMissing(facts, Demands(g, facts, states, n))
  }

  ghost predicate BehindWork(states: States, body: Body) {
    exists e :: e in EdgesOf(body) && Works(StateAt(states, e.source))
  }

  predicate SomeMissing(facts: Facts, keys: set<Key>) {
    exists k :: k in keys && k !in facts
  }

  lemma {:induction false} StuckLacks(facts: Facts, c: Checksum, runs: seq<Run>)
    ensures Follow(facts, c, runs).Stuck? ==> SomeMissing(facts, Followed(facts, c, runs))
    decreases |runs|
  {
    if runs != [] && runs[0].legal {
      var k := Convert(runs[0].expression, c);
      assert k in Followed(facts, c, runs);
      if k in facts && facts[k].Value? {
        StuckLacks(facts, facts[k].checksum, runs[1..]);
        if Follow(facts, c, runs).Stuck? {
          var m :| m in Followed(facts, facts[k].checksum, runs[1..]) && m !in facts;
          assert m in Followed(facts, c, runs);
        }
      }
    }
  }

  /** An edge that has not delivered, or whose target has not converted, lacks a fact or is behind
      a source that works. */
  lemma EdgeWaits(facts: Facts, states: States, edge: Edge, own: seq<Run>)
    requires Delivers(facts, states, edge).Pending?
             || (Delivers(facts, states, edge).Ready?
                   && Follow(facts, Delivers(facts, states, edge).checksum, own).Stuck?)
    ensures SomeMissing(facts, EdgeThenOwn(facts, states, edge, own)) || Works(StateAt(states, edge.source))
  {
    var st := StateAt(states, edge.source);
    if st.Complete? {
      StuckLacks(facts, st.checksum, edge.runs);
    }
    if Delivers(facts, states, edge).Ready? {
      StuckLacks(facts, Delivers(facts, states, edge).checksum, own);
    }
    hide Follow, Followed;
    if SomeMissing(facts, Looks(facts, states, edge)) {
      var k :| k in Looks(facts, states, edge) && k !in facts;
      assert k in EdgeThenOwn(facts, states, edge, own);
    } else if Delivers(facts, states, edge).Ready? {
      var k :| k in Followed(facts, Delivers(facts, states, edge).checksum, own) && k !in facts;
      assert k in EdgeThenOwn(facts, states, edge, own);
    }
  }

  lemma {:induction false} SlotKeysOf(facts: Facts, states: States, slots: seq<Slot>, i: nat)
    requires i < |slots| && SlotFault(facts, states, slots).None?
    ensures EdgeThenOwn(facts, states, slots[i].edge, slots[i].own) <= SlotKeys(facts, states, slots)
  {
    if i > 0 {
      SlotKeysOf(facts, states, slots[1..], i - 1);
    }
  }

  lemma FirstReason(facts: Facts, states: States, slots: seq<Slot>)
    requires slots != []
    ensures Reasons(facts, states, slots) == map[] ==> SlotReason(Delivers(facts, states, slots[0].edge)).None?
  {
    if SlotReason(Delivers(facts, states, slots[0].edge)).Some? {
      assert slots[0].name in Reasons(facts, states, slots);
    }
  }

  lemma {:induction false} NoReasons(facts: Facts, states: States, slots: seq<Slot>)
    requires Reasons(facts, states, slots) == map[]
    ensures forall i :: 0 <= i < |slots| ==> SlotReason(Delivers(facts, states, slots[i].edge)).None?
  {
    if slots != [] {
      var rest := Reasons(facts, states, slots[1..]);
      FirstReason(facts, states, slots);
      NoReasons(facts, states, slots[1..]);
      forall i | 0 <= i < |slots| ensures SlotReason(Delivers(facts, states, slots[i].edge)).None? {
        if i > 0 {
          assert slots[i] == slots[1..][i - 1];
        }
      }
    }
  }

  lemma JoinWaits(facts: Facts, states: States, root: Stem, own: seq<Run>, slots: seq<Slot>)
    requires JoinedState(facts, states, root, own, slots).Waiting?
    ensures SomeMissing(facts, JoinDemands(facts, states, root, own, slots))
            || exists i :: 0 <= i < |slots| && Works(StateAt(states, slots[i].edge.source))
  {
    var keys := JoinDemands(facts, states, root, own, slots);
    if !AllReached(facts, states, slots) {
      NoReasons(facts, states, slots);
      FaultIsNotReached(facts, states, slots);
      var i :| 0 <= i < |slots| && !SlotProgress(facts, states, slots[i]).Reached?;
      EdgeWaits(facts, states, slots[i].edge, slots[i].own);
      SlotKeysOf(facts, states, slots, i);
      if SomeMissing(facts, EdgeThenOwn(facts, states, slots[i].edge, slots[i].own)) {
        var k :| k in EdgeThenOwn(facts, states, slots[i].edge, slots[i].own) && k !in facts;
        assert k in keys;
      }
    } else if RootProgress(facts, root, own).Stuck? {
      StuckLacks(facts, root.value.value, own);
      var k :| k in Followed(facts, root.value.value, own) && k !in facts;
      assert k in keys;
    } else {
      var k := JoinKey(facts, states, RootValue(root, RootProgress(facts, root, own)), slots);
      assert k in keys && k !in facts;
    }
  }

  lemma PinWaits(facts: Facts, states: States, pin: Pin)
    requires SupplyOf(facts, states, pin) == Lacks(Later)
    ensures SomeMissing(facts, PinKeys(facts, states, pin))
      || (pin.input.FromEdge? && Works(StateAt(states, pin.input.edge.source)))
  {
    match pin.input {
      case Missing =>
      case Constant(c) => StuckLacks(facts, c, pin.own);
      case FromEdge(edge) =>
        EdgeWaits(facts, states, edge, pin.own);
        var d := Delivers(facts, states, edge);
        if d.Ready? {
          StuckLacks(facts, d.checksum, pin.own);
          var k :| k in Followed(facts, d.checksum, pin.own) && k !in facts;
          assert k in PinKeys(facts, states, pin);
        } else if SomeMissing(facts, EdgeThenOwn(facts, states, edge, pin.own)) {
          var k :| k in EdgeThenOwn(facts, states, edge, pin.own) && k !in facts;
          assert k in PinKeys(facts, states, pin);
        }
    }
  }

  /** The worst lack is that of one of the inputs, and none is more urgent. */
  lemma {:induction false} WorstIsOneOf(facts: Facts, states: States, pins: seq<Pin>)
    ensures var w := Worst(facts, states, pins);
            && (w.Lacks? ==>
                  && (exists i :: 0 <= i < |pins| && SupplyOf(facts, states, pins[i]) == w)
                  && (forall i :: 0 <= i < |pins| && SupplyOf(facts, states, pins[i]).Lacks? ==>
                        Urgency(w.lack) <= Urgency(SupplyOf(facts, states, pins[i]).lack)))
            && (!w.Lacks? ==> forall i :: 0 <= i < |pins| ==> !SupplyOf(facts, states, pins[i]).Lacks?)
  {
    hide SupplyOf, Urgency;
    if pins != [] {
      var first, rest := SupplyOf(facts, states, pins[0]), Worst(facts, states, pins[1..]);
      WorstIsOneOf(facts, states, pins[1..]);
      forall i | 1 <= i < |pins| ensures pins[i] == pins[1..][i - 1] {
      }
      var w := Worst(facts, states, pins);
      if w.Lacks? && w != first {
        var i :| 0 <= i < |pins| - 1 && SupplyOf(facts, states, pins[1..][i]) == rest;
        assert pins[i + 1] == pins[1..][i];
      }
    }
  }

  lemma {:induction false} PinsKeysOf(facts: Facts, states: States, pins: seq<Pin>, i: nat)
    requires i < |pins|
    ensures PinKeys(facts, states, pins[i]) <= PinsKeys(facts, states, pins)
  {
    if i > 0 {
      PinsKeysOf(facts, states, pins[1..], i - 1);
    }
  }

  lemma TransformerWaits(facts: Facts, states: States, n: Node, body: Body)
    requires body.Transformer? && Works(LocalRule(facts, states, n, body, []))
    ensures SomeMissing(facts, LocalDemands(facts, states, n, body, [])) || BehindWork(states, body)
  {
    var all := [CodePin(body.code)] + body.pins;
    WorstIsOneOf(facts, states, all);
    var worst := Worst(facts, states, all);
    if worst.Lacks? {
      assert worst == Lacks(Later);
      var i :| 0 <= i < |all| && SupplyOf(facts, states, all[i]) == worst;
      PinWaits(facts, states, all[i]);
      PinsKeysOf(facts, states, all, i);
      hide SupplyOf, Worst, PinKeys, PinsKeys;
      if SomeMissing(facts, PinKeys(facts, states, all[i])) {
        var k :| k in PinKeys(facts, states, all[i]) && k !in facts;
        assert k in LocalDemands(facts, states, n, body, []);
      } else {
        InputIsAnEdge(body, i);
        assert all[i].input.edge in EdgesOf(body);
      }
    } else {
      var k := ExecuteKey(facts, states, n, body.code, body.pins, body.config);
      assert k in LocalDemands(facts, states, n, body, []) && k !in facts;
    }
  }

  lemma LocalWorkHasAReason(facts: Facts, states: States, n: Node, body: Body, own: seq<Run>)
    requires Works(LocalRule(facts, states, n, body, own))
    ensures SomeMissing(facts, LocalDemands(facts, states, n, body, own)) || BehindWork(states, body)
  {
    match body {
      case Producer(_, value, own) =>
        StuckLacks(facts, value.value, own);
      case Linked(_, edge, _) =>
        EdgeWaits(facts, states, edge, own);
        assert edge in EdgesOf(body);
      case Joined(u, value, own, slots) =>
        var root := Stem(u, value);
        JoinWaits(facts, states, root, own, slots);
        if !SomeMissing(facts, JoinDemands(facts, states, root, own, slots)) {
          var i :| 0 <= i < |slots| && Works(StateAt(states, slots[i].edge.source));
          assert slots[i] in slots && slots[i].edge in EdgesOf(body);
        }
      case Transformer(_, _, _, _) => TransformerWaits(facts, states, n, body);
    }
  }

  /** A node that waits or computes demands a fact that is not there, or hangs on one that works. */
  lemma WorkHasAReason(g: Wired, facts: Facts, states: States, n: Node)
    requires n in g.nodes && Works(Rule(g, facts, states, n))
    ensures Lacking(g, facts, states, n) || BehindWork(states, g.nodes[n])
  {
    var body := Rooted(g, states, g.nodes[n]);
    LocalWorkHasAReason(facts, states, n, body, OwnOf(g, g.nodes[n]));
    hide LocalRule, LocalDemands, Fused;
    if BehindWork(states, body) {
      var e :| e in EdgesOf(body) && Works(StateAt(states, e.source));
      assert e in EdgesOf(g.nodes[n]);
    }
  }

  lemma {:induction false} WorkGoesBackToAJob(g: Wired, order: seq<Node>, facts: Facts, states: States, i: nat)
    requires Ordered(g, order) && Solution(g, facts, states) && i < |order| && Works(states[order[i]])
    ensures exists walk ::
              Upstream(g, walk) && walk[0] == order[i] && walk[|walk| - 1] in g.nodes
              && Lacking(g, facts, states, walk[|walk| - 1])
    decreases i
  {
    var n := order[i];
    assert n in g.nodes;
    WorkHasAReason(g, facts, states, n);
    if Lacking(g, facts, states, n) {
      assert Upstream(g, [n]);
      assert [n][0] == n && [n][|[n]| - 1] == n;
    } else {
      var e :| e in EdgesOf(g.nodes[n]) && Works(StateAt(states, e.source));
      assert e.source in Sources(g.nodes[n]);
      assert e.source in Before(order, i);
      var j :| 0 <= j < i && order[j] == e.source;
      assert e.source in order;
      WorkGoesBackToAJob(g, order, facts, states, j);
      var walk :| Upstream(g, walk) && walk[0] == e.source && walk[|walk| - 1] in g.nodes
        && Lacking(g, facts, states, walk[|walk| - 1]);
      UpstreamFurther(g, n, walk);
      var w := [n] + walk;
      assert w[0] == n && w[|w| - 1] == walk[|walk| - 1];
    }
  }

  /** No barrier waits for nothing: after any turns, a node that waits or computes has, upstream or
      at itself, a node with a job outstanding. */
  lemma WaitingNodesHaveJobs(g: Wired, order: seq<Node>, c: Controller, truth: Key -> Fact, moves: seq<Move>, n: Node)
    requires Ordered(g, order) && Derived(g, c, truth) && AllPossible(g, moves) && n in g.nodes
    ensures var d := Played(g, c, truth, moves);
            n in d.states && (Works(d.states[n]) ==> WaitsForJob(g, d, n))
  {
    EveryRunIsDerived(g, c, truth, moves);
    WorkHasJob(g, order, Played(g, c, truth, moves), truth, n);
  }

  /** At the end of a walk upstream there is a node that demands a fact with an outstanding job. */
  ghost predicate WaitsForJob(g: Wired, c: Controller, n: Node) {
    exists walk, k :: Upstream(g, walk) && walk[0] == n && walk[|walk| - 1] in g.nodes
      && k in c.jobs && k in Demands(g, c.facts, c.states, walk[|walk| - 1])
  }

  lemma WorkHasJob(g: Wired, order: seq<Node>, c: Controller, truth: Key -> Fact, n: Node)
    requires Ordered(g, order) && Derived(g, c, truth) && n in g.nodes
    ensures n in c.states && (Works(c.states[n]) ==> WaitsForJob(g, c, n))
  {
    hide Rule, Demands;
    assert n in order && n in c.states;
    if Works(c.states[n]) {
      var i :| 0 <= i < |order| && order[i] == n;
      WorkGoesBackToAJob(g, order, c.facts, c.states, i);
      var walk :| Upstream(g, walk) && walk[0] == n && walk[|walk| - 1] in g.nodes
        && Lacking(g, c.facts, c.states, walk[|walk| - 1]);
      var k :| k in Demands(g, c.facts, c.states, walk[|walk| - 1]) && k !in c.facts;
      assert walk[|walk| - 1] in g.nodes;
      assert k in Used(g, c.facts, c.states);
      assert k in c.jobs;
    }
  }

  /** So with no job outstanding, the whole graph passes the barriers' test. */
  lemma NoJobsMeansQuiet(g: Wired, order: seq<Node>, c: Controller, truth: Key -> Fact, moves: seq<Move>)
    requires Ordered(g, order) && Derived(g, c, truth) && AllPossible(g, moves) && Played(g, c, truth, moves).jobs == {}
    ensures forall n :: n in g.nodes ==>
      n in Played(g, c, truth, moves).states && !Works(Played(g, c, truth, moves).states[n])
  {
    EveryRunIsDerived(g, c, truth, moves);
    var d := Played(g, c, truth, moves);
    hide Played, Derived;
    forall n | n in g.nodes ensures n in d.states && !Works(d.states[n]) {
      WorkHasJob(g, order, d, truth, n);
    }
  }

  // ----- which keys a node demands -----

  ghost predicate Converts(keys: set<Key>) {
    forall k :: k in keys ==> !k.Execute?
  }

  lemma {:induction false} FollowedIsConverts(facts: Facts, c: Checksum, runs: seq<Run>)
    ensures Converts(Followed(facts, c, runs))
    decreases |runs|
  {
    if runs != [] && runs[0].legal {
      var k := Convert(runs[0].expression, c);
      if k in facts && facts[k].Value? {
        FollowedIsConverts(facts, facts[k].checksum, runs[1..]);
      }
    }
  }

  lemma EdgeConverts(facts: Facts, states: States, edge: Edge, own: seq<Run>)
    ensures Converts(EdgeThenOwn(facts, states, edge, own)) && Converts(Looks(facts, states, edge))
  {
    var s := StateAt(states, edge.source);
    if s.Complete? {
      FollowedIsConverts(facts, s.checksum, edge.runs);
    }
    var d := Delivers(facts, states, edge);
    if d.Ready? {
      FollowedIsConverts(facts, d.checksum, own);
    }
  }

  lemma {:induction false} SlotsConvert(facts: Facts, states: States, slots: seq<Slot>)
    ensures Converts(SlotKeys(facts, states, slots))
  {
    if slots != [] {
      EdgeConverts(facts, states, slots[0].edge, slots[0].own);
      SlotsConvert(facts, states, slots[1..]);
    }
  }

  lemma PinConverts(facts: Facts, states: States, pin: Pin)
    ensures Converts(PinKeys(facts, states, pin))
  {
    match pin.input {
      case Missing =>
      case Constant(c) => FollowedIsConverts(facts, c, pin.own);
      case FromEdge(edge) =>
        EdgeConverts(facts, states, edge, pin.own);
        var d := Delivers(facts, states, edge);
        if d.Ready? {
          FollowedIsConverts(facts, d.checksum, pin.own);
        }
    }
  }

  lemma {:induction false} PinsConvert(facts: Facts, states: States, pins: seq<Pin>)
    ensures Converts(PinsKeys(facts, states, pins))
  {
    if pins != [] {
      PinConverts(facts, states, pins[0]);
      PinsConvert(facts, states, pins[1..]);
    }
  }

  // ----- root causes -----

  predicate Carries(s: State, r: Reason) {
    match s
    case Miswired => r == ByMiswiring
    case Unwired => r == ByUnwired
    case Failed(_) => r == ByError
    case Blocked(q) => q == r
    case BlockedAt(reasons) => r in reasons.Values
    case _ => false
  }

  /** One of the node's own edges or conversions fails. */
  predicate EdgeBreaks(facts: Facts, states: States, edge: Edge, own: seq<Run>) {
    match Delivers(facts, states, edge)
    case Broken(_, origin) => !origin.Inherited?
    case Ready(c) => Follow(facts, c, own).Broke?
    case _ => false
  }

  predicate InputBreaks(facts: Facts, states: States, pin: Pin) {
    match pin.input
    case Missing => false
    case Constant(c) => Taken(facts, pin, c) == Lacks(Behind(ByError))
    case FromEdge(edge) =>
      match Delivers(facts, states, edge)
      case Broken(_, origin) => !origin.Inherited?
      case Ready(c) => Taken(facts, pin, c) == Lacks(Behind(ByError))
      case _ => false
  }

  predicate Refuted(facts: Facts, k: Key) { k in facts && facts[k].Error? }

  /** A genuine defect of the class, in what a node evaluates by itself. */
  ghost predicate LocalDefect(facts: Facts, states: States, n: Node, body: Body, own: seq<Run>, r: Reason) {
    match r
    case ByMiswiring => exists e :: e in EdgesOf(body) && !e.wiring.Sound?
    case ByUnwired =>
      (match body
       case Producer(_, value, _) => value.None?
       case Transformer(_, code, pins, _) =>
         code.Missing? || exists i :: 0 <= i < |pins| && pins[i].input.Missing? && !pins[i].optional
       case _ => false)
    case ByError =>
      (match body
       case Sick(_, _) => true
       case Producer(_, value, own) => value.Some? && Follow(facts, value.value, own).Broke?
       case Linked(_, edge, _) => EdgeBreaks(facts, states, edge, own)
       case Joined(u, value, own, slots) =>
         var root := Stem(u, value);
         || (exists i :: 0 <= i < |slots| && EdgeBreaks(facts, states, slots[i].edge, slots[i].own))
         || RootProgress(facts, root, own).Broke?
         || (AllReached(facts, states, slots) && RootProgress(facts, root, own).Reached?
             && Refuted(facts, JoinKey(facts, states, RootValue(root, RootProgress(facts, root, own)), slots)))
       case Transformer(_, code, pins, config) =>
         || InputBreaks(facts, states, CodePin(code))
         || (exists i :: 0 <= i < |pins| && InputBreaks(facts, states, pins[i]))
         || Refuted(facts, ExecuteKey(facts, states, n, code, pins, config)))
  }

  /** A genuine defect of the class, at the node itself: an ill-formed link, a missing value, or an
      evaluation, join or execution that failed. */
  ghost predicate Defect(g: Wired, facts: Facts, states: States, n: Node, r: Reason)
    requires n in g.nodes
  {
    LocalDefect(facts, states, n, Rooted(g, states, g.nodes[n]), OwnOf(g, g.nodes[n]), r)
  }

  ghost predicate SourceCarries(states: States, body: Body, r: Reason) {
    exists e :: e in EdgesOf(body) && Carries(StateAt(states, e.source), r)
  }

  /** A cell blocked at some of its parts says at which. */
  predicate Specific(s: State) { s.BlockedAt? ==> s.reasons != map[] }

  lemma RuleIsSpecific(g: Wired, facts: Facts, states: States, n: Node)
    requires n in g.nodes
    ensures Specific(Rule(g, facts, states, n))
  {
    hide Follow, SlotFault, Reasons, AnyAwry, AllReached, Worst, Delivers, RootProgress, JoinKey, ExecuteKey, Rooted;
  }

  lemma SomeReason(reasons: map<Name, Reason>)
    requires reasons != map[]
    ensures Present(reasons, ByMiswiring) || Present(reasons, ByUnwired) || Present(reasons, ByError)
  {
    var n :| n in reasons;
    var r := reasons[n];
    assert r in reasons.Values;
    match r {
      case ByMiswiring =>
      case ByUnwired =>
      case ByError =>
    }
  }

  /** What makes an edge deliver a reason: the edge itself, or the state of its source. */
  lemma EdgeCause(facts: Facts, states: States, edge: Edge)
    requires Specific(StateAt(states, edge.source))
    ensures var d := Delivers(facts, states, edge);
            && (d.Awry? ==> !edge.wiring.Sound?)
            && (d.AwryAbove? ==> !edge.wiring.Sound? || Carries(StateAt(states, edge.source), ByMiswiring))
            && (d.Unmet? ==> Carries(StateAt(states, edge.source), ByUnwired))
            && (d.Broken? && d.origin.Inherited? ==> Carries(StateAt(states, edge.source), ByError))
  {
    hide Follow;
    var s := StateAt(states, edge.source);
    if s.BlockedAt? {
      SomeReason(s.reasons);
    }
  }

  lemma LinkedCause(facts: Facts, states: States, n: Node, body: Body, own: seq<Run>, r: Reason)
    requires body.Linked? && Specific(StateAt(states, body.edge.source))
    requires Carries(LinkedState(facts, states, body.edge, own), r)
    ensures LocalDefect(facts, states, n, body, own, r) || SourceCarries(states, body, r)
  {
    EdgeCause(facts, states, body.edge);
    hide Delivers, Follow;
    assert body.edge in EdgesOf(body);
  }

  lemma {:induction false} ReasonHasASlot(facts: Facts, states: States, slots: seq<Slot>, n: Name)
    requires n in Reasons(facts, states, slots)
    ensures exists i ::
              0 <= i < |slots|
              && SlotReason(Delivers(facts, states, slots[i].edge)) == Some(Reasons(facts, states, slots)[n])
  {
    hide Delivers, SlotReason;
    var r := SlotReason(Delivers(facts, states, slots[0].edge));
    if r.None? || slots[0].name != n {
      ReasonHasASlot(facts, states, slots[1..], n);
      var i :| 0 <= i < |slots| - 1
        && SlotReason(Delivers(facts, states, slots[1..][i].edge)) == Some(Reasons(facts, states, slots[1..])[n]);
      assert slots[i + 1] == slots[1..][i];
    }
  }

  lemma SlotCause(facts: Facts, states: States, n: Node, body: Body, i: nat, r: Reason)
    requires body.Joined? && i < |body.slots| && Specific(StateAt(states, body.slots[i].edge.source))
    requires SlotReason(Delivers(facts, states, body.slots[i].edge)) == Some(r)
    ensures LocalDefect(facts, states, n, body, [], r) || SourceCarries(states, body, r)
  {
    var slot := body.slots[i];
    EdgeCause(facts, states, slot.edge);
    assert slot in body.slots && slot.edge in EdgesOf(body);
    hide Delivers, Follow;
    var d := Delivers(facts, states, slot.edge);
    if d.Broken? && !d.origin.Inherited? {
      assert EdgeBreaks(facts, states, body.slots[i].edge, body.slots[i].own);
    }
  }

  lemma JoinedCause(facts: Facts, states: States, n: Node, body: Body, r: Reason)
    requires body.Joined? && forall i :: 0 <= i < |body.slots| ==> Specific(StateAt(states, body.slots[i].edge.source))
    requires Carries(LocalRule(facts, states, n, body, []), r)
    ensures LocalDefect(facts, states, n, body, [], r) || SourceCarries(states, body, r)
  {
    var slots := body.slots;
    FaultIsNotReached(facts, states, slots);
    hide Delivers, Follow, RootProgress, Members, Reasons, SlotFault;
    match LocalRule(facts, states, n, body, []) {
      case BlockedAt(reasons) =>
        var name :| name in reasons && reasons[name] == r;
        ReasonHasASlot(facts, states, slots, name);
        var i :| 0 <= i < |slots| && SlotReason(Delivers(facts, states, slots[i].edge)) == Some(r);
        SlotCause(facts, states, n, body, i, r);
      case Miswired =>
        var i :| 0 <= i < |slots| && Delivers(facts, states, slots[i].edge).Awry?;
        EdgeCause(facts, states, slots[i].edge);
        assert slots[i] in slots && slots[i].edge in EdgesOf(body);
      case Failed(_) =>
        if SlotFault(facts, states, slots).Some? {
          var i :| 0 <= i < |slots| && SlotProgress(facts, states, slots[i]).Broke?;
          assert EdgeBreaks(facts, states, slots[i].edge, slots[i].own);
        }
      case _ =>
    }
  }

  /** The reason an input's lack carries; an input that comes later carries none. */
  function Told(l: Lack): Option<Reason> {
    match l case Ill => Some(ByMiswiring) case NoInput => Some(ByUnwired) case Behind(r) => Some(r) case Later => None
  }

  lemma TakenTells(facts: Facts, pin: Pin, c: Checksum)
    ensures var s := Taken(facts, pin, c); s.Lacks? ==> s.lack == Later || s.lack == Behind(ByError)
  {
    hide Follow;
  }

  lemma PinCause(facts: Facts, states: States, n: Node, body: Body, i: nat, r: Reason)
    requires body.Transformer? && i < |[CodePin(body.code)] + body.pins|
    requires var pin := ([CodePin(body.code)] + body.pins)[i];
             && (pin.input.FromEdge? ==> Specific(StateAt(states, pin.input.edge.source)))
             && SupplyOf(facts, states, pin).Lacks? && Told(SupplyOf(facts, states, pin).lack) == Some(r)
    ensures LocalDefect(facts, states, n, body, [], r) || SourceCarries(states, body, r)
  {
    var pin := ([CodePin(body.code)] + body.pins)[i];
    assert i > 0 ==> pin == body.pins[i - 1];
    match pin.input {
      case Missing =>
      case Constant(c) =>
        TakenTells(facts, pin, c);
        assert InputBreaks(facts, states, pin);
      case FromEdge(edge) =>
        InputIsAnEdge(body, i);
        EdgeCause(facts, states, edge);
        var d := Delivers(facts, states, edge);
        if d.Ready? {
          TakenTells(facts, pin, d.checksum);
        }
        hide EdgesOf, Delivers, Taken;
        if d.Ready? || (d.Broken? && !d.origin.Inherited?) {
          assert InputBreaks(facts, states, pin);
        }
    }
  }

  lemma TransformerCause(facts: Facts, states: States, n: Node, body: Body, r: Reason)
    requires body.Transformer?
    requires var all := [CodePin(body.code)] + body.pins;
             forall i :: 0 <= i < |all| && all[i].input.FromEdge? ==>
               Specific(StateAt(states, all[i].input.edge.source))
    requires Carries(LocalRule(facts, states, n, body, []), r)
    ensures LocalDefect(facts, states, n, body, [], r) || SourceCarries(states, body, r)
  {
    var all := [CodePin(body.code)] + body.pins;
    WorstIsOneOf(facts, states, all);
    var w := Worst(facts, states, all);
    hide SupplyOf, Worst, ExecuteKey;
    if w.Lacks? {
      var i :| 0 <= i < |all| && SupplyOf(facts, states, all[i]) == w;
      PinCause(facts, states, n, body, i, r);
    }
  }

  lemma LocalReasonGoesUpstream(facts: Facts, states: States, n: Node, body: Body, own: seq<Run>, r: Reason)
    requires forall e :: e in EdgesOf(body) ==> Specific(StateAt(states, e.source))
    requires Carries(LocalRule(facts, states, n, body, own), r)
    ensures LocalDefect(facts, states, n, body, own, r) || SourceCarries(states, body, r)
  {
    match body {
      case Sick(_, _) =>
      case Producer(_, _, _) =>
      case Linked(_, _, _) => LinkedCause(facts, states, n, body, own, r);
      case Joined(_, _, _, slots) =>
        assert forall i :: 0 <= i < |slots| ==> slots[i] in slots && slots[i].edge in EdgesOf(body);
        JoinedCause(facts, states, n, body, r);
      case Transformer(_, code, pins, _) =>
        forall i | 0 <= i < |[CodePin(code)] + pins| && ([CodePin(code)] + pins)[i].input.FromEdge?
          ensures Specific(StateAt(states, ([CodePin(code)] + pins)[i].input.edge.source))
        {
          InputIsAnEdge(body, i);
        }
        TransformerCause(facts, states, n, body, r);
    }
  }

  /** A node that carries a reason has a defect of that class itself, or a source that carries the
      same reason. */
  lemma ReasonGoesUpstream(g: Wired, facts: Facts, states: States, n: Node, r: Reason)
    requires n in g.nodes && forall e :: e in EdgesOf(g.nodes[n]) ==> Specific(StateAt(states, e.source))
    requires Carries(Rule(g, facts, states, n), r)
    ensures Defect(g, facts, states, n, r) || SourceCarries(states, g.nodes[n], r)
  {
    var body := Rooted(g, states, g.nodes[n]);
    assert forall e :: e in EdgesOf(body) ==> e in EdgesOf(g.nodes[n]);
    hide LocalRule, LocalDefect, Fused;
    LocalReasonGoesUpstream(facts, states, n, body, OwnOf(g, g.nodes[n]), r);
  }

  /** Every node of a walk carries the reason, and the last has the defect. */
  ghost predicate LeadsToDefect(g: Wired, facts: Facts, states: States, walk: seq<Node>, r: Reason) {
    && Upstream(g, walk) && (forall i :: 0 <= i < |walk| ==> walk[i] in states && Carries(states[walk[i]], r))
    && Defect(g, facts, states, walk[|walk| - 1], r)
  }

  lemma SourcesAreSpecific(g: Wired, order: seq<Node>, facts: Facts, states: States, i: nat)
    requires Ordered(g, order) && Solution(g, facts, states) && i < |order| && order[i] in g.nodes
    ensures forall e :: e in EdgesOf(g.nodes[order[i]]) ==> e.source in g.nodes && Specific(StateAt(states, e.source))
  {
    hide Rule, EdgesOf;
    forall e | e in EdgesOf(g.nodes[order[i]]) ensures e.source in g.nodes && Specific(StateAt(states, e.source)) {
      assert e.source in Sources(g.nodes[order[i]]);
      SourceComesBefore(g, order, i, e.source);
      RuleIsSpecific(g, facts, states, e.source);
    }
  }

  lemma ReasonStep(g: Wired, order: seq<Node>, facts: Facts, states: States, i: nat, r: Reason)
    requires Ordered(g, order) && Solution(g, facts, states) && i < |order| && order[i] in states
    requires Carries(states[order[i]], r)
    ensures order[i] in g.nodes
    ensures Defect(g, facts, states, order[i], r)
            || exists j ::
                 0 <= j < i && order[j] in Sources(g.nodes[order[i]]) && order[j] in states
                 && Carries(states[order[j]], r)
  {
    var n := order[i];
    assert n in g.nodes && states[n] == Rule(g, facts, states, n);
    hide Defect, Rule, EdgesOf, Carries, Specific;
    SourcesAreSpecific(g, order, facts, states, i);
    ReasonGoesUpstream(g, facts, states, n, r);
    if !Defect(g, facts, states, n, r) {
      var e :| e in EdgesOf(g.nodes[n]) && Carries(StateAt(states, e.source), r);
      assert e.source in Sources(g.nodes[n]);
      SourceComesBefore(g, order, i, e.source);
      var j :| 0 <= j < i && order[j] == e.source;
      assert order[j] in g.nodes;
    }
  }

  lemma {:induction false} ReasonGoesBack(g: Wired, order: seq<Node>, facts: Facts, states: States, i: nat, r: Reason)
    requires Ordered(g, order) && Solution(g, facts, states) && i < |order| && order[i] in states
    requires Carries(states[order[i]], r)
    ensures exists walk :: LeadsToDefect(g, facts, states, walk, r) && walk[0] == order[i]
    decreases i
  {
    var n := order[i];
    ReasonStep(g, order, facts, states, i, r);
    hide Defect, Carries, Ordered, Solution, Sources;
    if Defect(g, facts, states, n, r) {
      assert LeadsToDefect(g, facts, states, [n], r);
      assert [n][0] == n;
    } else {
      var j :| 0 <= j < i && order[j] in Sources(g.nodes[n]) && order[j] in states && Carries(states[order[j]], r);
      ReasonGoesBack(g, order, facts, states, j, r);
      var walk :| LeadsToDefect(g, facts, states, walk, r) && walk[0] == order[j];
      LeadsFurther(g, facts, states, n, walk, r);
      assert ([n] + walk)[0] == n;
    }
  }

  lemma SourceComesBefore(g: Wired, order: seq<Node>, i: nat, n: Node)
    requires Ordered(g, order) && i < |order| && order[i] in g.nodes && n in Sources(g.nodes[order[i]])
    ensures exists j :: 0 <= j < i && order[j] == n
    ensures n in g.nodes
  {
    hide Sources;
    assert n in Before(order, i);
    assert n in order[..i] && n in order;
  }

  lemma LeadsFurther(g: Wired, facts: Facts, states: States, n: Node, walk: seq<Node>, r: Reason)
    requires LeadsToDefect(g, facts, states, walk, r) && n in g.nodes && walk[0] in Sources(g.nodes[n]) && n in states
    requires Carries(states[n], r)
    ensures LeadsToDefect(g, facts, states, [n] + walk, r)
  {
    hide Defect, Carries, Sources;
    UpstreamFurther(g, n, walk);
    var w := [n] + walk;
    assert w[|w| - 1] == walk[|walk| - 1];
    forall k | 0 <= k < |w| ensures w[k] in states && Carries(states[w[k]], r) {
      if k > 0 {
        assert w[k] == walk[k - 1];
      }
    }
  }

  /** Root causes. A node without a value for a reason goes back to it: up a walk of nodes that all
      carry that reason, to one that has the defect itself. */
  lemma EveryReasonHasARoot(g: Wired, order: seq<Node>, facts: Facts, states: States, n: Node, r: Reason)
    requires Ordered(g, order) && Solution(g, facts, states) && n in g.nodes && Carries(states[n], r)
    ensures exists walk :: LeadsToDefect(g, facts, states, walk, r) && walk[0] == n
  {
    assert n in order;
    var i :| 0 <= i < |order| && order[i] == n;
    ReasonGoesBack(g, order, facts, states, i, r);
  }

  /** A transformer shows the most urgent of what its inputs lack: ill-formed wiring before a
      missing input, then what is blocked by miswiring, by a missing value, by an error, and last
      what is only late. If none lacks, it shows what its execution brought. */
  lemma TransformerPriority(facts: Facts, states: States, n: Node, body: Body)
    requires body.Transformer?
    ensures var all, s := [CodePin(body.code)] + body.pins, LocalRule(facts, states, n, body, []);
            if forall i :: 0 <= i < |all| ==> !SupplyOf(facts, states, all[i]).Lacks?
            then s == Answer(facts, ExecuteKey(facts, states, n, body.code, body.pins, body.config), Computing)
            else exists j ::
                   0 <= j < |all| && SupplyOf(facts, states, all[j]).Lacks?
                   && s == LackState(SupplyOf(facts, states, all[j]).lack)
                   && forall i :: 0 <= i < |all| && SupplyOf(facts, states, all[i]).Lacks? ==>
                        Urgency(SupplyOf(facts, states, all[j]).lack) <= Urgency(SupplyOf(facts, states, all[i]).lack)
  {
    WorstIsOneOf(facts, states, [CodePin(body.code)] + body.pins);
    hide SupplyOf, Worst, ExecuteKey, Urgency, LackState, Answer;
  }
}
