/** The derivation and the run ledger together, turn by turn: cells take their values from facts
    that jobs bring in, transformers from the runs that the ledger keeps. */
module Engine {
  import opened Dag
  import opened Derivation
  import opened DerivedGraphs
  import opened DerivedCauses
  import L = RunLedger

  // ----- what the ledger brings -----

  predicate IsRunOf(k: Key, n: Node) { k.Execute? && k.node == n }

  /** The outcomes that the ledger shows, as facts about the executions they were derived for. */
  function Executed(l: L.Ledger): Facts {
    map p | p in l.nodes && l.nodes[p].Shows? && p in l.demand && IsRunOf(l.demand[p], p) ::
      l.demand[p] := l.nodes[p].outcome
  }

  function All(facts: Facts, l: L.Ledger): Facts { facts + Executed(l) }

  ghost predicate NoRuns(facts: Facts) {
    forall k :: k in facts ==> !k.Execute?
  }

  ghost predicate Keyed(l: L.Ledger) {
    forall p :: p in l.demand ==> IsRunOf(l.demand[p], p)
  }

  lemma ExecutedIs(l: L.Ledger, k: Key)
    ensures k in Executed(l) <==>
            k.Execute? && k.node in l.nodes && l.nodes[k.node].Shows? && k.node in l.demand && l.demand[k.node] == k
    ensures k in Executed(l) ==> Executed(l)[k] == l.nodes[k.node].outcome
  {
  }

  /** The ledger's facts about one node's runs depend on what it holds for that node. */
  lemma SameRuns(facts: Facts, l: L.Ledger, after: L.Ledger, p: Node, k: Key)
    requires L.ShowsElsewhere(l, after, p) && NoRuns(facts) && !IsRunOf(k, p)
    ensures Agree(All(facts, l), All(facts, after), {k})
  {
    ExecutedIs(l, k);
    ExecutedIs(after, k);
  }

  // ----- the runs that are demanded -----

  /** A node demands no run but its own, and only a transformer demands one. */
  lemma DemandsOwnRuns(g: Wired, facts: Facts, states: States, n: Node)
    requires n in g.nodes
    ensures forall k :: k in Demands(g, facts, states, n) && k.Execute? ==> k.node == n && g.nodes[n].Transformer?
  {
    var body := Rooted(g, states, g.nodes[n]);
    hide Followed, SlotKeys, PinsKeys, EdgeThenOwn, Fused, Worst;
    match body {
      case Sick(_, _) =>
      case Producer(_, value, own) =>
        if value.Some? {
          FollowedIsConverts(facts, value.value, own);
        }
      case Linked(_, edge, _) => EdgeConverts(facts, states, edge, OwnOf(g, g.nodes[n]));
      case Joined(_, root, own, slots) =>
        SlotsConvert(facts, states, slots);
        if root.Some? {
          FollowedIsConverts(facts, root.value, own);
        }
      case Transformer(_, code, pins, _) => PinsConvert(facts, states, [CodePin(code)] + pins);
    }
  }

  // ----- one node after another -----

  datatype Need = Need(wanted: bool, missing: bool, scratch: bool)

  datatype Work = Work(states: States, ledger: L.Ledger)

  ghost predicate Unresolved(states: States, body: Body) {
    exists e :: e in EdgesOf(body) && Works(StateAt(states, e.source))
  }

  ghost function DemandOf(facts: Facts, states: States, n: Node, body: Body, need: Need): L.Demand
    requires body.Transformer?
  {
    if Worst(facts, states, [CodePin(body.code)] + body.pins).Lacks? then L.Unavailable(Unresolved(states, body))
    else L.Want(ExecuteKey(facts, states, n, body.code, body.pins, body.config), Unresolved(states, body),
                need.wanted, need.missing, need.scratch)
  }

  function ShownState(l: L.Ledger, n: Node): State {
    if n !in l.nodes then Waiting
    else match l.nodes[n]
         case Shows(Value(c)) => Complete(c)
         case Shows(Error(e)) => Failed(e)
         case Computing => Computing
         case Without => Waiting
  }

  /** A transformer's demand goes to the ledger, and it shows what the ledger then has for it. */
  ghost function NodeStep(g: Wired, facts: Facts, w: Work, n: Node, need: Need, now: real): Work
    requires n in g.nodes
  {
    var body := g.nodes[n];
    if !body.Transformer? then w.(states := w.states[n := Rule(g, facts, w.states, n)])
    else
      var worst := Worst(facts, w.states, [CodePin(body.code)] + body.pins);
      var ledger := L.Derive(w.ledger, n, DemandOf(facts, w.states, n, body, need), now);
      Work(w.states[n := if worst.Lacks? then LackState(worst.lack) else ShownState(ledger, n)], ledger)
  }

  ghost function WorkThrough(g: Wired, facts: Facts, order: seq<Node>, l: L.Ledger, needs: Node -> Need,
      now: real): Work
    requires forall n :: n in order ==> n in g.nodes
  {
    if order == [] then Work(map[], l)
    else
      var n := order[|order| - 1];
      NodeStep(g, facts, WorkThrough(g, facts, order[..|order| - 1], l, needs, now), n, needs(n), now)
  }

  /** The node is in the state of its rule, and the ledger was derived for the run it demands. */
  ghost predicate Done(g: Wired, facts: Facts, w: Work, n: Node) {
    && n in g.nodes && n in w.states && w.states[n] == Rule(g, All(facts, w.ledger), w.states, n)
    && L.Displays(w.ledger, n)
    && forall k :: k in Demands(g, All(facts, w.ledger), w.states, n) && k.Execute? ==>
         n in w.ledger.nodes && !w.ledger.nodes[n].Without? && n in w.ledger.demand && w.ledger.demand[n] == k
  }

  ghost predicate LedgerOf(g: Wired, l: L.Ledger) {
    L.Kept(l) && Keyed(l) && forall p :: p in l.nodes ==> p in g.nodes && g.nodes[p].Transformer?
  }

  ghost predicate DoneSoFar(g: Wired, facts: Facts, order: seq<Node>, i: nat, w: Work)
    requires i <= |order|
  {
    && LedgerOf(g, w.ledger) && w.states.Keys == Before(order, i)
    && forall j :: 0 <= j < i ==> Done(g, facts, w, order[j])
  }

  /** With facts that agree on the pins, a transformer finds the same inputs. */
  lemma SameSupplies(facts: Facts, more: Facts, states: States, n: Node, body: Body)
    requires body.Transformer? && NoRuns(facts) && (forall k :: k in facts ==> k in more && more[k] == facts[k])
    requires forall k :: k in more && k !in facts ==> k.Execute?
    ensures var all := [CodePin(body.code)] + body.pins;
            && Worst(facts, states, all) == Worst(more, states, all)
            && ExecuteKey(facts, states, n, body.code, body.pins, body.config) ==
               ExecuteKey(more, states, n, body.code, body.pins, body.config)
  {
    var all := [CodePin(body.code)] + body.pins;
    PinsConvert(facts, states, all);
    PinsConvert(facts, states, body.pins);
    hide PinsKeys, Worst, SupplyOf, Arguments;
    assert Agree(facts, more, PinsKeys(facts, states, all)) && Agree(facts, more, PinsKeys(facts, states, body.pins));
    PinsRead(facts, more, states, states, all);
    PinsRead(facts, more, states, states, body.pins);
    assert all[0] == CodePin(body.code);
  }

  lemma AllExtends(facts: Facts, l: L.Ledger)
    requires NoRuns(facts)
    ensures forall k :: k in facts ==> k in All(facts, l) && All(facts, l)[k] == facts[k]
    ensures forall k :: k in All(facts, l) && k !in facts ==> k.Execute?
  {
    forall k | k in facts ensures k !in Executed(l) {
      ExecutedIs(l, k);
    }
    forall k | k in Executed(l) ensures k.Execute? {
      ExecutedIs(l, k);
    }
  }

  /** The node just stepped is in the state of its rule. */
  lemma StepIsDone(g: Wired, facts: Facts, w: Work, n: Node, need: Need, now: real)
    requires n in g.nodes && NoRuns(facts) && LedgerOf(g, w.ledger)
    ensures var after := NodeStep(g, facts, w, n, need, now);
            && LedgerOf(g, after.ledger) && L.ShowsElsewhere(w.ledger, after.ledger, n)
            && after.states == w.states[n := Rule(g, All(facts, after.ledger), w.states, n)]
            && L.Displays(after.ledger, n)
            && forall k :: k in Demands(g, All(facts, after.ledger), w.states, n) && k.Execute? ==>
                 n in after.ledger.nodes && !after.ledger.nodes[n].Without? && n in after.ledger.demand
                   && after.ledger.demand[n] == k
  {
    if g.nodes[n].Transformer? {
      TransformerStepIsDone(g, facts, w, n, need, now);
    } else {
      DemandsOwnRuns(g, facts, w.states, n);
      AllExtends(facts, w.ledger);
      hide Rule, Demands, All, L.Displays, L.Kept;
      RuleReads(g, facts, All(facts, w.ledger), w.states, w.states, n);
      assert n !in w.ledger.nodes;
      assert L.Displays(w.ledger, n) by { NotThere(w.ledger, n); }
    }
  }

  lemma NotThere(l: L.Ledger, n: Node)
    requires n !in l.nodes
    ensures L.Displays(l, n)
  {
  }

  lemma LedgerStays(g: Wired, l: L.Ledger, after: L.Ledger, n: Node, d: L.Demand)
    requires LedgerOf(g, l) && n in g.nodes && g.nodes[n].Transformer? && L.DerivedAt(l, after, n, d)
    requires d.Want? ==> IsRunOf(d.key, n)
    ensures LedgerOf(g, after)
  {
    hide L.Kept, L.Displays;
    forall p | p in after.demand ensures IsRunOf(after.demand[p], p) {
      if p != n {
        assert p in l.demand;
      }
    }
  }

  /** What the ledger shows for a run is what its facts say about it. */
  lemma ShownIsAnswer(facts: Facts, l: L.Ledger, n: Node, k: Key)
    requires NoRuns(facts) && IsRunOf(k, n) && n in l.nodes && !l.nodes[n].Without? && n in l.demand && l.demand[n] == k
    ensures ShownState(l, n) == Answer(All(facts, l), k, Computing)
  {
    ExecutedIs(l, k);
  }

  lemma TransformerRule(g: Wired, facts: Facts, states: States, n: Node)
    requires n in g.nodes && g.nodes[n].Transformer?
    ensures var body := g.nodes[n];
            var worst := Worst(facts, states, [CodePin(body.code)] + body.pins);
            var key := ExecuteKey(facts, states, n, body.code, body.pins, body.config);
            && Rule(g, facts, states, n) ==
               (if worst.Lacks? then LackState(worst.lack) else Answer(facts, key, Computing))
            && (forall k :: k in Demands(g, facts, states, n) && k.Execute? ==> !worst.Lacks? && k == key)
  {
    var body := g.nodes[n];
    PinsConvert(facts, states, [CodePin(body.code)] + body.pins);
    hide Worst, SupplyOf, PinsKeys, Arguments, ExecuteKey;
  }

  lemma TransformerStepIsDone(g: Wired, facts: Facts, w: Work, n: Node, need: Need, now: real)
    requires n in g.nodes && g.nodes[n].Transformer? && NoRuns(facts) && LedgerOf(g, w.ledger)
    ensures var after := NodeStep(g, facts, w, n, need, now);
            && LedgerOf(g, after.ledger) && L.ShowsElsewhere(w.ledger, after.ledger, n)
            && after.states == w.states[n := Rule(g, All(facts, after.ledger), w.states, n)]
            && L.Displays(after.ledger, n)
            && forall k :: k in Demands(g, All(facts, after.ledger), w.states, n) && k.Execute? ==>
                 n in after.ledger.nodes && !after.ledger.nodes[n].Without? && n in after.ledger.demand
                   && after.ledger.demand[n] == k
  {
    var body, d := g.nodes[n], DemandOf(facts, w.states, n, g.nodes[n], need);
    var l := L.Derive(w.ledger, n, d, now);
    hide L.Derive, L.Kept, L.Displays, L.OnlyAt, Worst, SupplyOf, Arguments, PinsKeys, Rule, Demands, All, Answer,
      ShownState, Unresolved;
    L.DeriveAt(w.ledger, n, d, now);
    LedgerStays(g, w.ledger, l, n, d);
    AllExtends(facts, l);
    SameSupplies(facts, All(facts, l), w.states, n, body);
    TransformerRule(g, All(facts, l), w.states, n);
    if d.Want? {
      ShownIsAnswer(facts, l, n, d.key);
    }
  }

  lemma DisplaysStays(l: L.Ledger, after: L.Ledger, p: Node, n: Node)
    requires L.ShowsElsewhere(l, after, p) && L.OnlyAt(l, after, p) && n != p && L.Displays(l, n)
    ensures L.Displays(after, n)
  {
  }

  lemma SameLooks(facts: Facts, l: L.Ledger, after: L.Ledger, p: Node, keys: set<Key>)
    requires L.ShowsElsewhere(l, after, p) && NoRuns(facts) && forall k :: k in keys ==> !IsRunOf(k, p)
    ensures Agree(All(facts, l), All(facts, after), keys)
  {
    var f, h := All(facts, l), All(facts, after);
    hide All, L.ShowsElsewhere;
    forall k | k in keys ensures (k in f <==> k in h) && (k in f ==> f[k] == h[k]) {
      SameRuns(facts, l, after, p, k);
      assert k in {k};
    }
  }

  lemma DoneStays(g: Wired, facts: Facts, order: seq<Node>, i: nat, j: nat, w: Work, after: Work)
    requires Ordered(g, order) && j + 1 < i <= |order| && NoRuns(facts) && Done(g, facts, w, order[j])
    requires order[i - 1] in after.states && order[i - 1] !in w.states && order[j] != order[i - 1]
    requires w.states.Keys == Before(order, i - 1)
    requires after.states == w.states[order[i - 1] := after.states[order[i - 1]]]
    requires L.ShowsElsewhere(w.ledger, after.ledger, order[i - 1]) && L.OnlyAt(w.ledger, after.ledger, order[i - 1])
    ensures Done(g, facts, after, order[j])
  {
    var n, p := order[j], order[i - 1];
    var f, h := All(facts, w.ledger), All(facts, after.ledger);
    DemandsOwnRuns(g, f, w.states, n);
    DisplaysStays(w.ledger, after.ledger, p, n);
    hide Rule, Demands, Ordered, Before, All, L.Displays, L.OnlyAt;
    OrderedSources(g, order, j, w.states, after.states, i);
    SameLooks(facts, w.ledger, after.ledger, p, Demands(g, f, w.states, n));
    RuleReads(g, f, h, w.states, after.states, n);
  }

  lemma StepGoesOn(g: Wired, facts: Facts, order: seq<Node>, i: nat, w: Work, need: Need, now: real)
    requires Ordered(g, order) && i < |order| && NoRuns(facts) && DoneSoFar(g, facts, order, i, w)
    requires order[i] in g.nodes
    ensures DoneSoFar(g, facts, order, i + 1, NodeStep(g, facts, w, order[i], need, now))
  {
    var n, after := order[i], NodeStep(g, facts, w, order[i], need, now);
    StepIsDone(g, facts, w, n, need, now);
    LedgerElsewhere(g, facts, w, n, need, now);
    OneMore(order, i);
    assert n !in w.states by { NotYet(order, i, n); }
    NewIsDone(g, facts, order, i, w, after);
    hide *;
    hide DoneSoFar;
    StillDoneSoFar(g, facts, order, i, w, after);
  }

  lemma OneMore(order: seq<Node>, i: nat)
    requires i < |order|
    ensures Before(order, i + 1) == Before(order, i) + {order[i]}
  {
    assert order[..i + 1] == order[..i] + [order[i]];
  }

  lemma NotYet(order: seq<Node>, i: nat, n: Node)
    requires NoRepeats(order) && i < |order| && n == order[i]
    ensures n !in Before(order, i)
  {
  }

  /** A step leaves the current runs of other nodes. */
  lemma LedgerElsewhere(g: Wired, facts: Facts, w: Work, n: Node, need: Need, now: real)
    requires n in g.nodes && L.Kept(w.ledger)
    ensures L.OnlyAt(w.ledger, NodeStep(g, facts, w, n, need, now).ledger, n)
  {
    hide L.Derive, L.Kept, Worst, Rule;
    if g.nodes[n].Transformer? {
      L.DeriveAt(w.ledger, n, DemandOf(facts, w.states, n, g.nodes[n], need), now);
    }
  }

  lemma NewIsDone(g: Wired, facts: Facts, order: seq<Node>, i: nat, w: Work, after: Work)
    requires Ordered(g, order) && i < |order| && order[i] in g.nodes && order[i] !in w.states
    requires w.states.Keys == Before(order, i)
    requires after.states == w.states[order[i] := Rule(g, All(facts, after.ledger), w.states, order[i])]
    requires L.Displays(after.ledger, order[i])
    requires forall k :: k in Demands(g, All(facts, after.ledger), w.states, order[i]) && k.Execute? ==>
               var n := order[i];
               n in after.ledger.nodes && !after.ledger.nodes[n].Without? && n in after.ledger.demand
                 && after.ledger.demand[n] == k
    ensures Done(g, facts, after, order[i])
  {
    var n, f := order[i], All(facts, after.ledger);
    hide Rule, Demands, All, L.Displays;
    OrderedSources(g, order, i, w.states, after.states, i + 1);
    AgreesWithItself(f, Demands(g, f, w.states, n));
    RuleReads(g, f, f, w.states, after.states, n);
  }

  lemma StillDoneSoFar(g: Wired, facts: Facts, order: seq<Node>, i: nat, w: Work, after: Work)
    requires Ordered(g, order) && i < |order| && NoRuns(facts) && DoneSoFar(g, facts, order, i, w)
    requires LedgerOf(g, after.ledger)
    requires order[i] in after.states && order[i] !in w.states
    requires after.states == w.states[order[i] := after.states[order[i]]]
    requires Before(order, i + 1) == Before(order, i) + {order[i]}
    requires L.ShowsElsewhere(w.ledger, after.ledger, order[i]) && L.OnlyAt(w.ledger, after.ledger, order[i])
    requires Done(g, facts, after, order[i])
    ensures DoneSoFar(g, facts, order, i + 1, after)
  {
    hide Done, LedgerOf, Ordered, Before, L.ShowsElsewhere;
    forall j | 0 <= j < i + 1 ensures Done(g, facts, after, order[j]) {
      if j < i {
        assert order[j] in w.states by { EarlierIn(order, j, i); }
        DoneStays(g, facts, order, i + 1, j, w, after);
      }
    }
  }

  lemma EarlierIn(order: seq<Node>, j: nat, i: nat)
    requires j < i <= |order|
    ensures order[j] in Before(order, i)
  {
    assert order[..i][j] == order[j];
  }

  lemma {:induction false} WorkIsDone(g: Wired, facts: Facts, order: seq<Node>, i: nat, l: L.Ledger,
      needs: Node -> Need, now: real)
    requires Ordered(g, order) && i <= |order| && NoRuns(facts) && LedgerOf(g, l)
    ensures forall n :: n in order[..i] ==> n in g.nodes
    ensures DoneSoFar(g, facts, order, i, WorkThrough(g, facts, order[..i], l, needs, now))
    decreases i
  {
    InGraph(g, order, i);
    if i == 0 {
      NothingDone(g, facts, order, l, needs, now);
    } else {
      hide *;
      hide DoneSoFar;
      WorkIsDone(g, facts, order, i - 1, l, needs, now);
      OneMoreDone(g, facts, order, i, l, needs, now);
    }
  }

  lemma OneMoreDone(g: Wired, facts: Facts, order: seq<Node>, i: nat, l: L.Ledger, needs: Node -> Need, now: real)
    requires Ordered(g, order) && 0 < i <= |order| && NoRuns(facts)
    requires (forall n :: n in order[..i] ==> n in g.nodes) && (forall n :: n in order[..i - 1] ==> n in g.nodes)
    requires DoneSoFar(g, facts, order, i - 1, WorkThrough(g, facts, order[..i - 1], l, needs, now))
    ensures DoneSoFar(g, facts, order, i, WorkThrough(g, facts, order[..i], l, needs, now))
  {
    var n, before := order[i - 1], order[..i - 1];
    assert n in order[..i] by { assert order[..i][i - 1] == n; }
    hide *;
    hide DoneSoFar;
    UnfoldWork(g, facts, order, i, l, needs, now);
    StepGoesOn(g, facts, order, i - 1, WorkThrough(g, facts, before, l, needs, now), needs(n), now);
  }

  lemma NothingDone(g: Wired, facts: Facts, order: seq<Node>, l: L.Ledger, needs: Node -> Need, now: real)
    requires LedgerOf(g, l)
    ensures DoneSoFar(g, facts, order, 0, WorkThrough(g, facts, order[..0], l, needs, now))
  {
    assert order[..0] == [] && Before(order, 0) == {};
    hide LedgerOf, Done;
  }

  lemma InGraph(g: Wired, order: seq<Node>, i: nat)
    requires Ordered(g, order) && i <= |order|
    ensures forall n :: n in order[..i] ==> n in g.nodes
  {
    forall n | n in order[..i] ensures n in g.nodes {
      assert n in order;
    }
  }

  lemma UnfoldWork(g: Wired, facts: Facts, order: seq<Node>, i: nat, l: L.Ledger, needs: Node -> Need, now: real)
    requires 0 < i <= |order| && (forall n :: n in order[..i] ==> n in g.nodes)
    requires (forall n :: n in order[..i - 1] ==> n in g.nodes)
    requires order[i - 1] in g.nodes
    ensures WorkThrough(g, facts, order[..i], l, needs, now) ==
            NodeStep(g, facts, WorkThrough(g, facts, order[..i - 1], l, needs, now), order[i - 1], needs(order[i - 1]),
              now)
  {
    assert order[..i][..i - 1] == order[..i - 1];
    hide NodeStep;
  }

  // ----- turns -----

  datatype Engine = Engine(g: Wired, facts: Facts, jobs: set<Key>, states: States, ledger: L.Ledger)

  /** How a turn walks: the order of its walk, what the nodes need of their runs, and the time. */
  datatype Pass = Pass(order: seq<Node>, needs: Node -> Need, now: real)

  function Outstanding(used: set<Key>, facts: Facts): set<Key> {
    set k | k in used && !k.Execute? && k !in facts
  }

  ghost function Turned(g: Wired, facts: Facts, l: L.Ledger, t: Pass): Engine
    requires forall n :: n in t.order ==> n in g.nodes
  {
    var w := WorkThrough(g, facts, t.order, l, t.needs, t.now);
    var used := Used(g, All(facts, w.ledger), w.states);
    Engine(g, Restrict(facts, used), Outstanding(used, facts), w.states, w.ledger)
  }

  /** A transformer's demand is the one its ledger entry was derived for. */
  ghost predicate Tracked(g: Wired, facts: Facts, states: States, l: L.Ledger, n: Node)
    requires n in g.nodes
  {
    forall k :: k in Demands(g, facts, states, n) && k.Execute? ==>
      n in l.nodes && !l.nodes[n].Without? && n in l.demand && l.demand[n] == k
  }

  /** Between turns: the states solve the rules over the facts and the runs shown, the ledger is
      sound and of this graph, and a job runs for each demanded fact that is missing. */
  ghost predicate Running(e: Engine) {
    var all := All(e.facts, e.ledger);
    && NoRuns(e.facts) && LedgerOf(e.g, e.ledger) && (forall p :: L.Displays(e.ledger, p))
    && Solution(e.g, all, e.states) && (forall n :: n in e.g.nodes ==> Tracked(e.g, all, e.states, e.ledger, n))
    && e.jobs == Outstanding(Used(e.g, all, e.states), e.facts)
  }

  lemma WholeWorkIsDone(g: Wired, facts: Facts, l: L.Ledger, t: Pass)
    requires Ordered(g, t.order) && NoRuns(facts) && LedgerOf(g, l)
    ensures (forall n :: n in t.order ==> n in g.nodes)
    ensures var w := WorkThrough(g, facts, t.order, l, t.needs, t.now);
            && LedgerOf(g, w.ledger) && Solution(g, All(facts, w.ledger), w.states)
            && (forall p :: L.Displays(w.ledger, p))
            && forall n :: n in g.nodes ==> Tracked(g, All(facts, w.ledger), w.states, w.ledger, n)
  {
    WorkIsDone(g, facts, t.order, |t.order|, l, t.needs, t.now);
    assert t.order[..|t.order|] == t.order;
    hide WorkThrough, LedgerOf, Done, L.Displays, Solution, Tracked, Ordered;
    AllAreDone(g, facts, t.order, WorkThrough(g, facts, t.order, l, t.needs, t.now));
  }

  lemma AllAreDone(g: Wired, facts: Facts, order: seq<Node>, w: Work)
    requires Ordered(g, order) && DoneSoFar(g, facts, order, |order|, w)
    ensures Solution(g, All(facts, w.ledger), w.states) && (forall p :: L.Displays(w.ledger, p))
    ensures forall n :: n in g.nodes ==> Tracked(g, All(facts, w.ledger), w.states, w.ledger, n)
  {
    forall n | n in g.nodes ensures Done(g, facts, w, n) {
      assert n in order;
      var j :| 0 <= j < |order| && order[j] == n;
    }
    forall n | n in w.states ensures n in g.nodes {
      assert n in Before(order, |order|) && n in order;
    }
    forall p ensures L.Displays(w.ledger, p) {
      if p in w.ledger.nodes {
        assert Done(g, facts, w, p);
      }
    }
    hide Rule, Demands, All, L.Kept, Ordered, L.Displays;
    DoneSolves(g, facts, w);
  }

  lemma DoneSolves(g: Wired, facts: Facts, w: Work)
    requires w.states.Keys == g.nodes.Keys && forall n :: n in g.nodes ==> Done(g, facts, w, n)
    ensures Solution(g, All(facts, w.ledger), w.states)
    ensures forall n :: n in g.nodes ==> Tracked(g, All(facts, w.ledger), w.states, w.ledger, n)
  {
    hide Rule, Demands, All, L.Displays;
  }

  lemma TurnRuns(g: Wired, facts: Facts, l: L.Ledger, t: Pass)
    requires Ordered(g, t.order) && NoRuns(facts) && LedgerOf(g, l)
    ensures (forall n :: n in t.order ==> n in g.nodes) && Running(Turned(g, facts, l, t))
  {
    WholeWorkIsDone(g, facts, l, t);
    var w := WorkThrough(g, facts, t.order, l, t.needs, t.now);
    hide WorkThrough, LedgerOf, L.Displays, Solution;
    KeptFactsServe(g, facts, w.ledger, w.states);
  }

  /** Dropping the facts nobody demands changes no state, no demand and no job. */
  lemma KeptFactsServe(g: Wired, facts: Facts, l: L.Ledger, states: States)
    requires NoRuns(facts) && Solution(g, All(facts, l), states)
    requires forall n :: n in g.nodes ==> Tracked(g, All(facts, l), states, l, n)
    ensures var used := Used(g, All(facts, l), states);
            var kept := Restrict(facts, used);
            && NoRuns(kept) && Solution(g, All(kept, l), states) && Used(g, All(kept, l), states) == used
            && (forall n :: n in g.nodes ==> Tracked(g, All(kept, l), states, l, n))
            && Outstanding(used, kept) == Outstanding(used, facts)
  {
    var all, used := All(facts, l), Used(g, All(facts, l), states);
    var kept := Restrict(facts, used);
    RestrictedAgrees(facts, l, used);
    hide Rule, Demands, Restrict, All, Used, Agree, Solution;
    RestrictedSolves(g, all, All(kept, l), states);
    forall n | n in g.nodes ensures Tracked(g, All(kept, l), states, l, n) {
      assert Tracked(g, all, states, l, n);
      SameDemands(g, all, All(kept, l), states, n);
    }
  }

  lemma RestrictedAgrees(facts: Facts, l: L.Ledger, used: set<Key>)
    requires NoRuns(facts)
    ensures var kept := Restrict(facts, used);
            && NoRuns(kept) && Agree(All(facts, l), All(kept, l), used)
            && Outstanding(used, kept) == Outstanding(used, facts)
  {
    var kept := Restrict(facts, used);
    forall k | k in used
      ensures k in All(facts, l) <==> k in All(kept, l)
      ensures k in All(facts, l) ==> All(facts, l)[k] == All(kept, l)[k]
    {
      ExecutedIs(l, k);
    }
  }

  lemma SameDemands(g: Wired, f: Facts, h: Facts, states: States, n: Node)
    requires n in g.nodes && Agree(f, h, Used(g, f, states))
    ensures Demands(g, f, states, n) == Demands(g, h, states, n)
  {
    assert forall k :: k in Demands(g, f, states, n) ==> k in Used(g, f, states);
    hide Rule, Demands;
    RuleReads(g, f, h, states, states, n);
  }

  // ----- what happens -----

  datatype Event =
    | Accepted(key: Key, fact: Fact, t: Pass)              // a job's result arrives
    | Completed(m: L.Completion, last: bool, t: Pass)      // an execution's does; it may come again
    | Forgotten(keys: set<Key>, t: Pass)                   // facts are dropped, to be demanded anew
    | Cleared(n: Node, keys: set<Key>, t: Pass)            // a node's exception is cleared
    | Edited(g: Wired, gone: seq<Node>, t: Pass)           // the graph changes; runs of `gone` go
    | Replaced(g: Wired, t: Pass)                          // another graph takes over
    | Aside(e: L.Event)                                    // the ledger alone moves on

  predicate OnlyLedger(e: L.Event) { e.Ended? || e.Died? || e.Expired? || e.Pruned? || e.Elsewhere? }

  function Without(facts: Facts, keys: set<Key>): Facts {
    map k | k in facts && k !in keys :: facts[k]
  }

  function DeleteAll(l: L.Ledger, gone: seq<Node>): L.Ledger
    decreases |gone|
  {
    if gone == [] then l else DeleteAll(L.Delete(l, gone[0]), gone[1..])
  }

  function Taken(l: L.Ledger, m: L.Completion, last: bool): L.Ledger {
    if last then l.(log := l.log.(mail := l.log.mail - {m})) else l
  }

  ghost predicate Possible(e: Engine, v: Event) {
    match v
    case Accepted(_, _, t) => Ordered(e.g, t.order)
    case Completed(m, _, t) => Ordered(e.g, t.order) && m in e.ledger.log.mail
    case Forgotten(_, t) => Ordered(e.g, t.order)
    case Cleared(_, _, t) => Ordered(e.g, t.order)
    case Edited(g, gone, t) =>
      Ordered(g, t.order) && forall p :: p in e.ledger.nodes && p !in gone ==> p in g.nodes && g.nodes[p].Transformer?
    case Replaced(g, t) => Ordered(g, t.order)
    case Aside(a) => OnlyLedger(a) && L.Possible(e.ledger, a)
  }

  ghost function Next(e: Engine, v: Event): Engine
    requires Possible(e, v)
  {
    match v
    case Accepted(k, fact, t) =>
      InOrder(e.g, t.order);
      if k in e.jobs then Turned(e.g, e.facts[k := fact], e.ledger, t) else e
    case Completed(m, last, t) =>
      InOrder(e.g, t.order);
      var l := Taken(e.ledger, m, last);
      if L.Findable(e.ledger, m.path, m.generation) then Turned(e.g, e.facts, L.Entered(l, m), t) else e.(ledger := l)
    case Forgotten(keys, t) =>
      InOrder(e.g, t.order);
      Turned(e.g, Without(e.facts, keys), e.ledger, t)
    case Cleared(n, keys, t) =>
      InOrder(e.g, t.order);
      Turned(e.g, Without(e.facts, keys), L.WithoutRun(e.ledger, n), t)
    case Edited(g, gone, t) =>
      InOrder(g, t.order);
      Turned(g, e.facts, DeleteAll(e.ledger, gone), t)
    case Replaced(g, t) =>
      InOrder(g, t.order);
      Turned(g, e.facts, L.Replace(e.ledger), t)
    case Aside(a) => e.(ledger := L.Next(e.ledger, a))
  }

  lemma InOrder(g: Wired, order: seq<Node>)
    requires Ordered(g, order)
    ensures forall n :: n in order ==> n in g.nodes
  {
  }

  lemma {:induction false} DeletedAll(l: L.Ledger, gone: seq<Node>)
    requires L.Sound(l)
    ensures var after := DeleteAll(l, gone);
            && L.Sound(after)
            && (forall p :: p in after.nodes ==> p in l.nodes && p !in gone)
            && (forall p :: p in after.demand ==> p in l.demand && after.demand[p] == l.demand[p])
    decreases |gone|
  {
    if gone != [] {
      L.DeleteKeeps(l, gone[0]);
      var after := L.Delete(l, gone[0]);
      assert after.nodes == l.nodes - {gone[0]} && after.demand == l.demand - {gone[0]};
      hide L.Sound, L.Delete;
      DeletedAll(after, gone[1..]);
    }
  }

  lemma LedgerIsSound(e: Engine)
    requires Running(e)
    ensures L.Sound(e.ledger) && LedgerOf(e.g, e.ledger) && NoRuns(e.facts)
  {
    hide Solution, Tracked, L.Kept, L.Displays;
  }

  lemma EnteredIsOf(g: Wired, l: L.Ledger, m: L.Completion, last: bool)
    requires LedgerOf(g, l) && m in l.log.mail
    ensures LedgerOf(g, L.Entered(Taken(l, m, last), m))
  {
    L.EnteredKeeps(l, m, last);
    hide L.Kept;
  }

  lemma ClearedIsOf(g: Wired, l: L.Ledger, n: Node)
    requires LedgerOf(g, l)
    ensures LedgerOf(g, L.WithoutRun(l, n))
  {
    L.WithoutRunKeeps(l, n);
    hide L.Kept;
  }

  lemma EditedIsOf(e: Engine, g: Wired, gone: seq<Node>)
    requires Running(e) && forall p :: p in e.ledger.nodes && p !in gone ==> p in g.nodes && g.nodes[p].Transformer?
    ensures LedgerOf(g, DeleteAll(e.ledger, gone))
  {
    LedgerIsSound(e);
    DeletedAll(e.ledger, gone);
    hide DeleteAll, Running, L.Displays;
    var l := DeleteAll(e.ledger, gone);
    assert L.Kept(l) && Keyed(l);
  }

  lemma ReplacedIsOf(e: Engine, g: Wired)
    requires Running(e)
    ensures LedgerOf(g, L.Replace(e.ledger))
  {
    LedgerIsSound(e);
    L.ReplaceKeeps(e.ledger);
    hide Running, L.Displays;
  }

  /** What the ledger shows, and for what, is all that the states take from it. */
  lemma SameShown(e: Engine, l: L.Ledger)
    requires Running(e) && L.Sound(l) && l.nodes == e.ledger.nodes && l.demand == e.ledger.demand
    ensures Running(e.(ledger := l))
  {
    assert All(e.facts, l) == All(e.facts, e.ledger);
    hide Solution, L.Kept, L.Displays, Demands;
    forall n | n in e.g.nodes ensures Tracked(e.g, All(e.facts, l), e.states, l, n) {
      assert Tracked(e.g, All(e.facts, e.ledger), e.states, e.ledger, n);
    }
  }

  lemma AsideShows(l: L.Ledger, a: L.Event)
    requires OnlyLedger(a) && L.Possible(l, a)
    ensures L.Next(l, a).nodes == l.nodes && L.Next(l, a).demand == l.demand
  {
  }

  lemma LateShows(e: Engine, m: L.Completion, last: bool)
    requires Running(e) && m in e.ledger.log.mail && !L.Findable(e.ledger, m.path, m.generation)
    ensures Running(e.(ledger := Taken(e.ledger, m, last)))
  {
    LedgerIsSound(e);
    hide Running, L.Sound, L.Findable, L.Derive;
    L.LateCompletionIsDropped(e.ledger, m, last, L.Unavailable(false), 0.0);
    SameShown(e, Taken(e.ledger, m, last));
  }

  lemma NextRuns(e: Engine, v: Event)
    requires Running(e) && Possible(e, v)
    ensures Running(Next(e, v))
  {
    LedgerIsSound(e);
    hide Running, L.Sound, LedgerOf, Turned, DeleteAll, L.Entered, L.WithoutRun, L.Replace, L.Findable, Taken, Ordered,
      L.Next;
    match v {
      case Accepted(k, fact, t) =>
        if k in e.jobs {
          JobsConvert(e, k);
          TurnRuns(e.g, e.facts[k := fact], e.ledger, t);
        }
      case Completed(m, last, t) =>
        if L.Findable(e.ledger, m.path, m.generation) {
          EnteredIsOf(e.g, e.ledger, m, last);
          TurnRuns(e.g, e.facts, L.Entered(Taken(e.ledger, m, last), m), t);
        } else {
          LateShows(e, m, last);
        }
      case Forgotten(keys, t) => TurnRuns(e.g, Without(e.facts, keys), e.ledger, t);
      case Cleared(n, keys, t) =>
        ClearedIsOf(e.g, e.ledger, n);
        TurnRuns(e.g, Without(e.facts, keys), L.WithoutRun(e.ledger, n), t);
      case Edited(g, gone, t) =>
        EditedIsOf(e, g, gone);
        TurnRuns(g, e.facts, DeleteAll(e.ledger, gone), t);
      case Replaced(g, t) =>
        ReplacedIsOf(e, g);
        TurnRuns(g, e.facts, L.Replace(e.ledger), t);
      case Aside(a) =>
        L.NextKeeps(e.ledger, a);
        AsideShows(e.ledger, a);
        SameShown(e, L.Next(e.ledger, a));
    }
  }

  lemma JobsConvert(e: Engine, k: Key)
    requires Running(e) && k in e.jobs
    ensures !k.Execute?
  {
    hide Solution, LedgerOf, Tracked, Used, All;
  }

  ghost predicate Plays(e: Engine, events: seq<Event>)
    decreases |events|
  {
    events == [] || (Possible(e, events[0]) && Plays(Next(e, events[0]), events[1..]))
  }

  ghost function Played(e: Engine, events: seq<Event>): Engine
    requires Plays(e, events)
    decreases |events|
  {
    if events == [] then e else Played(Next(e, events[0]), events[1..])
  }

  lemma {:induction false} EveryRunRuns(e: Engine, events: seq<Event>)
    requires Running(e) && Plays(e, events)
    ensures Running(Played(e, events))
    decreases |events|
  {
    hide Running, Next, Possible;
    if events != [] {
      NextRuns(e, events[0]);
      EveryRunRuns(Next(e, events[0]), events[1..]);
    }
  }

  /** An empty graph, with nothing under way. */
  const EMPTY := Engine(Wired(map[], {}), map[], {}, map[], L.EMPTY)

  lemma EmptyRuns()
    ensures Running(EMPTY)
  {
    assert forall p :: L.PathSound(L.EMPTY, p);
  }

  // ----- what then holds -----

  /** The node's execution runs on, unasked to stop, or its completion is on its way. */
  ghost predicate RunUnderWay(l: L.Ledger, n: Node, k: Key) {
    && n in l.current && l.current[n].key == k
    && var r := l.current[n];
       && r.generation in l.log.launched && l.log.launched[r.generation] == L.Launch(n, k)
       && r.generation !in l.log.stopped
       && (|| r.generation in l.log.running
           || (r.generation in l.log.produced
                 && L.Completion(n, r.generation, l.log.produced[r.generation]) in l.log.mail))
  }

  /** Upstream of `n`, or at it, a node demands a fact whose job is outstanding, or is a
      transformer whose run is under way. */
  ghost predicate WaitsForWork(e: Engine, n: Node) {
    exists walk, k :: Upstream(e.g, walk) && walk[0] == n && walk[|walk| - 1] in e.g.nodes
                      && k in Demands(e.g, All(e.facts, e.ledger), e.states, walk[|walk| - 1])
                      && (k in e.jobs || RunUnderWay(e.ledger, walk[|walk| - 1], k))
  }

  lemma MissingIsUnderWay(e: Engine, m: Node, k: Key)
    requires Running(e) && m in e.g.nodes
    requires k in Demands(e.g, All(e.facts, e.ledger), e.states, m) && k !in All(e.facts, e.ledger)
    ensures k in e.jobs || RunUnderWay(e.ledger, m, k)
  {
    var all := All(e.facts, e.ledger);
    if !k.Execute? {
      assert k in Used(e.g, all, e.states);
    } else {
      DemandsOwnRuns(e.g, all, e.states, m);
      ExecutedIs(e.ledger, k);
      assert Tracked(e.g, all, e.states, e.ledger, m);
      assert L.Displays(e.ledger, m) && L.PathSound(e.ledger, m);
      hide Solution, Demands, Used;
    }
  }

  lemma WorkWaits(e: Engine, order: seq<Node>, n: Node)
    requires Running(e) && Ordered(e.g, order) && n in e.g.nodes
    ensures n in e.states && (Works(e.states[n]) ==> WaitsForWork(e, n))
  {
    var all := All(e.facts, e.ledger);
    assert Solution(e.g, all, e.states) && n in order;
    hide Running, Rule, Demands, All;
    if Works(e.states[n]) {
      var i :| 0 <= i < |order| && order[i] == n;
      WorkGoesBackToAJob(e.g, order, all, e.states, i);
      var walk :| Upstream(e.g, walk) && walk[0] == n && walk[|walk| - 1] in e.g.nodes
        && Lacking(e.g, all, e.states, walk[|walk| - 1]);
      var k :| k in Demands(e.g, all, e.states, walk[|walk| - 1]) && k !in all;
      MissingIsUnderWay(e, walk[|walk| - 1], k);
    }
  }

  /** No barrier waits for nothing. Over every run of turns, completions and edits, a node that
      waits or computes has, at itself or upstream, a node with an outstanding job, a running
      execution or a completion on its way. */
  lemma WaitingNodesHaveWork(events: seq<Event>, order: seq<Node>, n: Node)
    requires Plays(EMPTY, events)
    requires var e := Played(EMPTY, events); Ordered(e.g, order) && n in e.g.nodes
    ensures var e := Played(EMPTY, events);
            n in e.states && (Works(e.states[n]) ==> WaitsForWork(e, n))
  {
    EmptyRuns();
    EveryRunRuns(EMPTY, events);
    WorkWaits(Played(EMPTY, events), order, n);
  }

  /** With no job, no execution and no completion left, no node waits or computes: the graph passes
      the barriers' test. */
  lemma NothingLeftMeansQuiet(events: seq<Event>, order: seq<Node>)
    requires Plays(EMPTY, events)
    requires var e := Played(EMPTY, events);
             Ordered(e.g, order) && e.jobs == {} && e.ledger.log.running == {} && e.ledger.log.mail == {}
    ensures var e := Played(EMPTY, events);
            forall n :: n in e.g.nodes ==> n in e.states && !Works(e.states[n])
  {
    EmptyRuns();
    EveryRunRuns(EMPTY, events);
    var e := Played(EMPTY, events);
    hide Played, Running, Plays;
    forall n | n in e.g.nodes ensures n in e.states && !Works(e.states[n]) {
      WorkWaits(e, order, n);
    }
  }

  /** A complete transformer shows what an execution produced that was launched at it for the very
      key its inputs now make. */
  lemma CompleteWasLaunched(events: seq<Event>, n: Node, k: Key)
    requires Plays(EMPTY, events)
    requires var e := Played(EMPTY, events);
             && n in e.g.nodes && n in e.states && e.states[n].Complete?
             && k in Demands(e.g, All(e.facts, e.ledger), e.states, n) && k.Execute?
    ensures var l := Played(EMPTY, events).ledger;
            && n in l.current && l.current[n].generation in l.log.launched
            && l.log.launched[l.current[n].generation] == L.Launch(n, k)
            && l.current[n].generation in l.log.produced
            && l.log.produced[l.current[n].generation] == Value(Played(EMPTY, events).states[n].checksum)
  {
    EmptyRuns();
    EveryRunRuns(EMPTY, events);
    CompleteRan(Played(EMPTY, events), n, k);
  }

  lemma CompleteRan(e: Engine, n: Node, k: Key)
    requires Running(e) && n in e.g.nodes && n in e.states && e.states[n].Complete?
    requires k in Demands(e.g, All(e.facts, e.ledger), e.states, n) && k.Execute?
    ensures var l := e.ledger;
            && n in l.current && l.current[n].generation in l.log.launched
            && l.log.launched[l.current[n].generation] == L.Launch(n, k)
            && l.current[n].generation in l.log.produced
            && l.log.produced[l.current[n].generation] == Value(e.states[n].checksum)
  {
    var all := All(e.facts, e.ledger);
    DemandsOwnRuns(e.g, all, e.states, n);
    TransformerRule(e.g, all, e.states, n);
    ExecutedIs(e.ledger, k);
    assert e.states[n] == Rule(e.g, all, e.states, n) && Tracked(e.g, all, e.states, e.ledger, n);
    assert L.Displays(e.ledger, n) && L.PathSound(e.ledger, n);
    hide Solution, Demands, Used, Rule, Worst, ExecuteKey;
  }
}
