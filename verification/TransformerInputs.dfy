/** A transformer's execution: of which code and with which arguments. */
module TransformerInputs {
  import opened Wrappers
  import opened Dag
  import opened Derivation
  import opened EdgeRuns
  import opened InputValues
  import DerivedCauses
  import R = Recipes
  import F = Fusion

  /** What feeds a pin, and the celltypes at its two ends. */
  datatype PinFeed = PinFeed(feed: Feed, from: R.Celltype, to: R.Celltype)

  ghost predicate PinFedBy(g: Wired, sem: Semantics, pin: Pin, f: PinFeed) {
    (pin.input.FromEdge? ==> FedBy(g, sem, pin.input.edge, f.feed)) && Turns(g, pin.own, f.from, f.to)
  }

  /** What arrives at an input: its own value, or what its recipe means over its source's value. */
  function Arriving(g: Wired, sem: Semantics, states: States, input: Input, feed: Feed): Outcome {
    match input
    case Missing => F.Failed
    case Constant(c) => F.Got(c)
    case FromEdge(edge) => if edge.wiring.Sound? then Meaning(g, sem, states, feed) else F.Failed
  }

  /** Whether a pin has what it needs, and which argument it gives, if any. Nothing is needed at an
      optional pin, and null there is nothing. Any other value is converted; null has to be allowed,
      and the value must not be one that was found unreadable. */
  predicate Gives(g: Wired, sem: Semantics, states: States, pin: Pin, f: PinFeed, argument: Option<Checksum>) {
    if pin.input.Missing? then pin.optional && argument.None?
    else
      var o := Arriving(g, sem, states, pin.input, f.feed);
      && o.Got?
      && if o.checksum == NULL_CHECKSUM && pin.optional then
           argument.None? && (f.from == f.to || Expression([], f.from, f.to, 0) !in g.refused)
         else
           && (o.checksum == NULL_CHECKSUM ==> pin.nullAllowed)
           && argument.Some? && F.Convert(sem, o, f.from, f.to) == F.Got(argument.value)
           && argument.value !in pin.unreadable
  }

  predicate Ascending(pins: seq<Pin>) {
    forall i, j :: 0 <= i < j < |pins| ==> pins[i].name < pins[j].name
  }

  /** The arguments are what the pins give, each under its pin's name, in the order of the names. */
  ghost predicate ArgumentsAre(pins: seq<Pin>, given: seq<Option<Checksum>>, arguments: seq<Member>)
    requires |given| == |pins|
  {
    && (forall j, k :: 0 <= j < k < |arguments| ==> arguments[j].name < arguments[k].name)
    && (forall i, c: Checksum :: 0 <= i < |pins| ==> (Member(pins[i].name, c) in arguments <==> given[i] == Some(c)))
    && (forall a :: a in arguments ==> exists i :: 0 <= i < |pins| && pins[i].name == a.name)
  }

  ghost predicate AllGive(g: Wired, sem: Semantics, states: States, pins: seq<Pin>, feeds: seq<PinFeed>,
      given: seq<Option<Checksum>>)
    requires |feeds| == |pins|
  {
    |given| == |pins| && forall i :: 0 <= i < |pins| ==> Gives(g, sem, states, pins[i], feeds[i], given[i])
  }

  /** The execution of the code that arrives with the arguments that the pins give. */
  ghost predicate Executes(g: Wired, sem: Semantics, states: States, n: Node, body: Body, code: Feed,
      feeds: seq<PinFeed>, k: Key)
    requires body.Transformer? && |feeds| == |body.pins|
  {
    && k.Execute? && k.node == n && k.config == body.config
    && Arriving(g, sem, states, body.code, code) == F.Got(k.code)
    && exists given :: AllGive(g, sem, states, body.pins, feeds, given) && ArgumentsAre(body.pins, given, k.arguments)
  }

  ghost predicate TransformerFedBy(g: Wired, sem: Semantics, body: Body, code: Feed, feeds: seq<PinFeed>) {
    && body.Transformer? && |feeds| == |body.pins| && Ascending(body.pins)
    && (body.code.FromEdge? ==> FedBy(g, sem, body.code.edge, code))
    && forall i :: 0 <= i < |feeds| ==> PinFedBy(g, sem, body.pins[i], feeds[i])
  }

  // ----- one pin -----

  lemma TakenIff(g: Wired, facts: Facts, sem: Semantics, valid: Validity, pin: Pin, f: PinFeed, c: Checksum)
    requires Granted(g, facts, sem, valid) && Turns(g, pin.own, f.from, f.to)
    ensures c == NULL_CHECKSUM && pin.optional ==>
      (Taken(facts, pin, c) == Spared <==> f.from == f.to || Expression([], f.from, f.to, 0) !in g.refused)
        && !Taken(facts, pin, c).Given?
    ensures !(c == NULL_CHECKSUM && pin.optional) ==> !Taken(facts, pin, c).Spared?
    ensures !(c == NULL_CHECKSUM && pin.optional) ==>
      forall v: Checksum :: Taken(facts, pin, c) == Supply.Given(v) <==>
        && (c == NULL_CHECKSUM ==> pin.nullAllowed) && v !in pin.unreadable
        && F.Convert(sem, F.Got(c), f.from, f.to) == F.Got(v) && All(facts, TakenKeys(facts, pin, c))
  {
    hide Granted, F.Convert, Follow, Followed;
    if c == NULL_CHECKSUM && pin.optional {
      hide Turns;
      OwnIsLegal(g, pin, f);
    } else {
      forall v: Checksum
        ensures Taken(facts, pin, c) == Supply.Given(v) <==>
          && (c == NULL_CHECKSUM ==> pin.nullAllowed) && v !in pin.unreadable
          && F.Convert(sem, F.Got(c), f.from, f.to) == F.Got(v) && All(facts, TakenKeys(facts, pin, c))
      {
        TurnIff(g, facts, sem, valid, c, pin.own, f.from, f.to, v);
      }
    }
  }

  lemma OwnIsLegal(g: Wired, pin: Pin, f: PinFeed)
    requires Turns(g, pin.own, f.from, f.to)
    ensures (pin.own == [] || pin.own[0].legal) <==> f.from == f.to || Expression([], f.from, f.to, 0) !in g.refused
  {
  }

  /** Without a lack a pin gives what it is to; and with each fact there, what it is to give it does. */
  lemma SupplyIff(g: Wired, facts: Facts, states: States, sem: Semantics, valid: Validity, pin: Pin, f: PinFeed)
    requires Granted(g, facts, sem, valid) && PinFedBy(g, sem, pin, f)
    ensures var s := SupplyOf(facts, states, pin);
            && (!s.Lacks? ==> Gives(g, sem, states, pin, f, if s.Given? then Some(s.checksum) else None))
            && (All(facts, PinKeys(facts, states, pin)) ==>
                  forall a: Option<Checksum> :: Gives(g, sem, states, pin, f, a) ==>
                    s == if a.Some? then Supply.Given(a.value) else Spared)
  {
    hide Granted, Taken, TakenKeys, Turns, Meaning, FedBy, F.Convert, Delivers, Looks;
    match pin.input {
      case Missing =>
      case Constant(c) => TakenIff(g, facts, sem, valid, pin, f, c);
      case FromEdge(edge) =>
        var d := Delivers(facts, states, edge);
        if d.Ready? {
          DeliversIff(g, facts, states, sem, valid, edge, f.feed, d.checksum);
          TakenIff(g, facts, sem, valid, pin, f, d.checksum);
        } else if edge.wiring.Sound? {
          NotDelivered(g, facts, states, sem, valid, edge, f.feed);
        }
    }
  }

  // ----- all pins -----

  function Supplied(facts: Facts, states: States, pins: seq<Pin>): seq<Option<Checksum>> {
    seq(|pins|, i requires 0 <= i < |pins| =>
      var s := SupplyOf(facts, states, pins[i]);
      if s.Given? then Some(s.checksum) else None)
  }

  lemma {:induction false} ArgumentsAreSupplied(facts: Facts, states: States, pins: seq<Pin>)
    requires Ascending(pins)
    ensures ArgumentsAre(pins, Supplied(facts, states, pins), Arguments(facts, states, pins))
  {
    hide SupplyOf;
    if pins != [] {
      var rest := pins[1..];
      ArgumentsAreSupplied(facts, states, rest);
      FirstArgument(facts, states, pins);
      RestSupplied(facts, states, pins);
      hide Supplied, Arguments, ArgumentsAre;
      NamesAbove(pins, Supplied(facts, states, rest), Arguments(facts, states, rest));
      OneMoreArgument(pins, Supplied(facts, states, pins), Arguments(facts, states, pins),
        Arguments(facts, states, rest));
    }
  }

  lemma RestSupplied(facts: Facts, states: States, pins: seq<Pin>)
    requires pins != []
    ensures Supplied(facts, states, pins)[1..] == Supplied(facts, states, pins[1..])
  {
    hide SupplyOf;
  }

  lemma NamesAbove(pins: seq<Pin>, given: seq<Option<Checksum>>, later: seq<Member>)
    requires pins != [] && Ascending(pins) && |given| == |pins| - 1 && ArgumentsAre(pins[1..], given, later)
    ensures forall a :: a in later ==> pins[0].name < a.name
  {
    forall a | a in later ensures pins[0].name < a.name {
      var i :| 0 <= i < |pins[1..]| && pins[1..][i].name == a.name;
      assert pins[1..][i] == pins[i + 1];
    }
  }

  lemma FirstArgument(facts: Facts, states: States, pins: seq<Pin>)
    requires pins != []
    ensures var given := Supplied(facts, states, pins);
            Arguments(facts, states, pins) ==
            (if given[0].Some? then [Member(pins[0].name, given[0].value)] else [])
              + Arguments(facts, states, pins[1..])
  {
    hide SupplyOf;
  }

  lemma OneMoreArgument(pins: seq<Pin>, given: seq<Option<Checksum>>, args: seq<Member>, later: seq<Member>)
    requires pins != [] && |given| == |pins| && Ascending(pins) && ArgumentsAre(pins[1..], given[1..], later)
    requires forall a :: a in later ==> pins[0].name < a.name
    requires args == (if given[0].Some? then [Member(pins[0].name, given[0].value)] else []) + later
    ensures ArgumentsAre(pins, given, args)
  {
    var rest := pins[1..];
    forall a | a in args ensures exists i :: 0 <= i < |pins| && pins[i].name == a.name {
      if a in later {
        var i :| 0 <= i < |rest| && rest[i].name == a.name;
        assert pins[i + 1].name == a.name;
      } else {
        assert pins[0].name == a.name;
      }
    }
    forall i, c: Checksum | 0 <= i < |pins| ensures Member(pins[i].name, c) in args <==> given[i] == Some(c) {
      if i > 0 {
        assert rest[i - 1] == pins[i] && given[1..][i - 1] == given[i];
        assert pins[0].name < pins[i].name;
        assert Member(rest[i - 1].name, c) in later <==> given[i] == Some(c);
      } else {
        assert Member(pins[0].name, c) !in later;
      }
    }
  }

  lemma AllSupplied(g: Wired, facts: Facts, states: States, sem: Semantics, valid: Validity, pins: seq<Pin>,
      feeds: seq<PinFeed>)
    requires Granted(g, facts, sem, valid) && |feeds| == |pins|
    requires forall i :: 0 <= i < |pins| ==> PinFedBy(g, sem, pins[i], feeds[i])
    requires forall i :: 0 <= i < |pins| ==> !SupplyOf(facts, states, pins[i]).Lacks?
    ensures AllGive(g, sem, states, pins, feeds, Supplied(facts, states, pins))
  {
    hide Granted, PinFedBy, SupplyOf, Gives, PinKeys;
    forall i | 0 <= i < |pins| ensures Gives(g, sem, states, pins[i], feeds[i], Supplied(facts, states, pins)[i]) {
      SupplyIff(g, facts, states, sem, valid, pins[i], feeds[i]);
    }
  }

  lemma AllGiven(g: Wired, facts: Facts, states: States, sem: Semantics, valid: Validity, pins: seq<Pin>,
      feeds: seq<PinFeed>, given: seq<Option<Checksum>>)
    requires Granted(g, facts, sem, valid) && |feeds| == |pins|
    requires forall i :: 0 <= i < |pins| ==> PinFedBy(g, sem, pins[i], feeds[i])
    requires AllGive(g, sem, states, pins, feeds, given) && All(facts, PinsKeys(facts, states, pins))
    ensures forall i :: 0 <= i < |pins| ==> !SupplyOf(facts, states, pins[i]).Lacks?
    ensures Supplied(facts, states, pins) == given
  {
    hide Granted, PinFedBy, SupplyOf, Gives, PinKeys, PinsKeys;
    forall i | 0 <= i < |pins|
      ensures SupplyOf(facts, states, pins[i]) == if given[i].Some? then Supply.Given(given[i].value) else Spared {
      DerivedCauses.PinsKeysOf(facts, states, pins, i);
      SupplyIff(g, facts, states, sem, valid, pins[i], feeds[i]);
    }
    assert |Supplied(facts, states, pins)| == |given|;
  }

  // ----- arguments that are given once -----

  /** No two lists give the same pins the same arguments. */
  lemma ArgumentsOnce(pins: seq<Pin>, given: seq<Option<Checksum>>, a: seq<Member>, b: seq<Member>)
    requires |given| == |pins| && ArgumentsAre(pins, given, a) && ArgumentsAre(pins, given, b)
    ensures a == b
  {
    forall m | m in a ensures m in b {
      SameArgument(pins, given, a, b, m);
    }
    forall m | m in b ensures m in a {
      SameArgument(pins, given, b, a, m);
    }
    SortedOnce(a, b);
  }

  lemma SameArgument(pins: seq<Pin>, given: seq<Option<Checksum>>, a: seq<Member>, b: seq<Member>, m: Member)
    requires |given| == |pins| && ArgumentsAre(pins, given, a) && ArgumentsAre(pins, given, b) && m in a
    ensures m in b
  {
    var i :| 0 <= i < |pins| && pins[i].name == m.name;
    var c: Checksum := m.checksum;
    assert Member(pins[i].name, c) == m;
    assert Member(pins[i].name, c) in a <==> given[i] == Some(c);
    assert Member(pins[i].name, c) in b <==> given[i] == Some(c);
  }

  predicate ByName(a: seq<Member>) { forall j, k :: 0 <= j < k < |a| ==> a[j].name < a[k].name }

  lemma {:induction false} SortedOnce(a: seq<Member>, b: seq<Member>)
    requires ByName(a) && ByName(b) && forall m :: m in a <==> m in b
    ensures a == b
    decreases |a|
  {
    if a == [] || b == [] {
      FirstIsMember(a);
      FirstIsMember(b);
    } else {
      assert a[0] in a && a[0] in b;
      var j :| 0 <= j < |b| && b[j] == a[0];
      assert b[0] in b && b[0] in a;
      var k :| 0 <= k < |a| && a[k] == b[0];
      assert j == 0 && k == 0;
      forall m ensures m in a[1..] <==> m in b[1..] {
        RestHolds(a, m);
        RestHolds(b, m);
      }
      SortedOnce(a[1..], b[1..]);
    }
  }

  lemma FirstIsMember(a: seq<Member>)
    ensures a != [] ==> a[0] in a
  {
  }

  lemma RestHolds(a: seq<Member>, m: Member)
    requires a != [] && ByName(a)
    ensures m in a[1..] <==> m in a && m != a[0]
  {
    if m in a && m != a[0] {
      var i :| 0 <= i < |a| && a[i] == m;
      assert a[1..][i - 1] == m;
    }
  }

  // ----- the execution -----

  lemma CodeIff(g: Wired, facts: Facts, states: States, sem: Semantics, valid: Validity, code: Input, feed: Feed)
    requires Granted(g, facts, sem, valid) && (code.FromEdge? ==> FedBy(g, sem, code.edge, feed))
    ensures var s := SupplyOf(facts, states, CodePin(code));
            && !s.Spared?
            && (s.Given? ==> Arriving(g, sem, states, code, feed) == F.Got(s.checksum))
            && (Arriving(g, sem, states, code, feed).Got? && All(facts, PinKeys(facts, states, CodePin(code))) ==>
                  s.Given? && Arriving(g, sem, states, code, feed) == F.Got(s.checksum))
  {
    hide Granted, FedBy, Meaning, Delivers, Looks;
    match code {
      case Missing =>
      case Constant(c) =>
      case FromEdge(edge) =>
        var d := Delivers(facts, states, edge);
        if d.Ready? {
          DeliversIff(g, facts, states, sem, valid, edge, feed, d.checksum);
        } else if edge.wiring.Sound? {
          NotDelivered(g, facts, states, sem, valid, edge, feed);
        }
    }
  }

  /** Every conversion that the transformer demands has its fact. */
  predicate ConversionsAreIn(facts: Facts, demands: set<Key>) {
    forall k :: k in demands && !k.Execute? ==> k in facts
  }

  lemma DemandsAre(g: Wired, facts: Facts, states: States, n: Node)
    requires n in g.nodes && g.nodes[n].Transformer?
    ensures var body := g.nodes[n];
            var all := [CodePin(body.code)] + body.pins;
            var key := ExecuteKey(facts, states, n, body.code, body.pins, body.config);
            && Rule(g, facts, states, n) ==
                 (if Worst(facts, states, all).Lacks? then LackState(Worst(facts, states, all).lack)
                  else Answer(facts, key, Computing))
            && (!Worst(facts, states, all).Lacks? ==> key in Demands(g, facts, states, n))
            && PinKeys(facts, states, CodePin(body.code)) <= Demands(g, facts, states, n)
            && PinsKeys(facts, states, body.pins) <= Demands(g, facts, states, n)
  {
    var body := g.nodes[n];
    var all := [CodePin(body.code)] + body.pins;
    assert all[0] == CodePin(body.code) && all[1..] == body.pins;
    hide Worst, PinKeys, SupplyOf, ExecuteKey;
  }

  /** A transformer has run, or has to, exactly one execution: of the code that arrives, with what its
      pins' own recipes and conversions mean over their own sources' values. What it shows is the answer
      to that execution, or that it computes. */
  lemma TransformerRuns(g: Wired, facts: Facts, states: States, sem: Semantics, valid: Validity, n: Node, code: Feed,
      feeds: seq<PinFeed>)
    requires Granted(g, facts, sem, valid) && n in g.nodes && TransformerFedBy(g, sem, g.nodes[n], code, feeds)
    requires Rule(g, facts, states, n).Complete? || Rule(g, facts, states, n).Computing?
    ensures exists k ::
              && Executes(g, sem, states, n, g.nodes[n], code, feeds, k) && k in Demands(g, facts, states, n)
              && Rule(g, facts, states, n) == Answer(facts, k, Computing)
  {
    var body := g.nodes[n];
    var all := [CodePin(body.code)] + body.pins;
    DemandsAre(g, facts, states, n);
    hide Rule, Demands, Worst, Answer, Urgency;
    assert !Worst(facts, states, all).Lacks? by { NoLack(facts, states, all); }
    NothingLacks(facts, states, body);
    hide SupplyOf, TransformerFedBy;
    KeyExecutes(g, facts, states, sem, valid, n, body, code, feeds);
  }

  lemma NoLack(facts: Facts, states: States, all: seq<Pin>)
    ensures Worst(facts, states, all).Lacks? ==>
      !LackState(Worst(facts, states, all).lack).Complete? && !LackState(Worst(facts, states, all).lack).Computing?
  {
    hide Worst;
  }

  lemma NothingLacks(facts: Facts, states: States, body: Body)
    requires body.Transformer? && !Worst(facts, states, [CodePin(body.code)] + body.pins).Lacks?
    ensures !SupplyOf(facts, states, CodePin(body.code)).Lacks?
    ensures forall i :: 0 <= i < |body.pins| ==> !SupplyOf(facts, states, body.pins[i]).Lacks?
  {
    var all := [CodePin(body.code)] + body.pins;
    DerivedCauses.WorstIsOneOf(facts, states, all);
    assert forall i :: 0 <= i < |body.pins| ==> all[i + 1] == body.pins[i];
    assert all[0] == CodePin(body.code);
    hide SupplyOf, Worst, Urgency;
  }

  lemma KeyExecutes(g: Wired, facts: Facts, states: States, sem: Semantics, valid: Validity, n: Node, body: Body,
      code: Feed, feeds: seq<PinFeed>)
    requires Granted(g, facts, sem, valid) && TransformerFedBy(g, sem, body, code, feeds)
    requires !SupplyOf(facts, states, CodePin(body.code)).Lacks?
    requires forall i :: 0 <= i < |body.pins| ==> !SupplyOf(facts, states, body.pins[i]).Lacks?
    ensures Executes(g, sem, states, n, body, code, feeds,
        ExecuteKey(facts, states, n, body.code, body.pins, body.config))
  {
    hide Granted, SupplyOf, FedBy, PinFedBy, Arriving, Supplied, Arguments, ArgumentsAre, AllGive;
    ArgumentsAreSupplied(facts, states, body.pins);
    CodeIff(g, facts, states, sem, valid, body.code, code);
    AllSupplied(g, facts, states, sem, valid, body.pins, feeds);
  }

  /** Once each conversion is there, a transformer whose inputs make an execution shows the answer to it,
      or computes: no other is made from the same inputs. */
  lemma InputsAreRun(g: Wired, facts: Facts, states: States, sem: Semantics, valid: Validity, n: Node, code: Feed,
      feeds: seq<PinFeed>, k: Key)
    requires Granted(g, facts, sem, valid) && n in g.nodes && TransformerFedBy(g, sem, g.nodes[n], code, feeds)
    requires Executes(g, sem, states, n, g.nodes[n], code, feeds, k)
    requires ConversionsAreIn(facts, Demands(g, facts, states, n))
    ensures k in Demands(g, facts, states, n) && Rule(g, facts, states, n) == Answer(facts, k, Computing)
  {
    var body := g.nodes[n];
    var all := [CodePin(body.code)] + body.pins;
    DemandsAre(g, facts, states, n);
    DerivedCauses.WorstIsOneOf(facts, states, all);
    DerivedCauses.PinsConvert(facts, states, body.pins);
    DerivedCauses.PinConverts(facts, states, CodePin(body.code));
    var given :| AllGive(g, sem, states, body.pins, feeds, given) && ArgumentsAre(body.pins, given, k.arguments);
    assert forall i :: 0 <= i < |body.pins| ==> all[i + 1] == body.pins[i];
    assert all[0] == CodePin(body.code);
    hide Granted, SupplyOf, FedBy, PinFedBy, Arriving, Supplied, Arguments, ArgumentsAre, AllGive, Worst, Rule, Demands,
      Answer, Urgency, PinKeys, PinsKeys;
    ArgumentsAreSupplied(facts, states, body.pins);
    CodeIff(g, facts, states, sem, valid, body.code, code);
    AllGiven(g, facts, states, sem, valid, body.pins, feeds, given);
    ArgumentsOnce(body.pins, given, k.arguments, Arguments(facts, states, body.pins));
  }
}
