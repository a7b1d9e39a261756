/** The state of every node, derived from its sources' states and from the facts that evaluation
    has brought in so far. One rule per kind of node; the facts are looked up, never computed
    here: a fact that is missing is demanded, and its node waits. */
module Derivation {
  import opened Wrappers
  import opened Dag
  import R = Recipes

  type Checksum = nat
  type Fault = nat
  type Name = nat

  /** What one evaluation does to a checksum: project a path, convert, and validate with `check`. */
  datatype Expression = Expression(path: R.Path, input: R.Celltype, output: R.Celltype, check: nat)

  /** One step of a recipe. An ill-formed one fails at once, without a fact; the failure of one that
      is not `told` is not recorded as the edge's own. */
  datatype Run = Run(expression: Expression, legal: bool, told: bool)

  /** What a fact is about; an execution is that of one transformer. */
  datatype Key =
    | Convert(expression: Expression, checksum: Checksum)
    | Join(celltype: R.Celltype, root: Option<Checksum>, members: seq<Member>)
    | Execute(node: Node, code: Checksum, arguments: seq<Member>, config: nat)

  datatype Member = Member(name: Name, checksum: Checksum)

  datatype Fact = Value(checksum: Checksum) | Error(fault: Fault)
  type Facts = map<Key, Fact>

  const ILL_FORMED: Fault := 0
  const NULL_CHECKSUM: Checksum := 0

  // ----- the wired graph -----

  /** The static verdict on an edge: sound, ill-formed itself, or fed by an ill-formed chain. */
  datatype Wiring = Sound | Own | Above

  /** `path` is read below the source; `runs` are the recipe's fused runs, over the source's value. */
  datatype Edge = Edge(source: Node, path: R.Path, converts: bool, wiring: Wiring, runs: seq<Run>)

  datatype Slot = Slot(name: Name, edge: Edge, own: seq<Run>)

  /** `unreadable` are the converted values that the transformer was found unable to read. */
  datatype Pin = Pin(name: Name, input: Input, own: seq<Run>, optional: bool, nullAllowed: bool,
      unreadable: set<Checksum>)
  datatype Input = FromEdge(edge: Edge) | Constant(checksum: Checksum) | Missing

  /** What a node is: a cell whose attachment reports an error, a cell with a value of its own, a
      cell fed as a whole, a cell joined from parts, or a transformer with its result's celltype.
      `own` are the node's own conversions; `check` is a cell's validator. */
  datatype Body =
    | Sick(celltype: R.Celltype, fault: Fault)
    | Producer(celltype: R.Celltype, value: Option<Checksum>, own: seq<Run>)
    | Linked(celltype: R.Celltype, edge: Edge, check: nat)
    | Joined(celltype: R.Celltype, root: Option<Checksum>, own: seq<Run>, slots: seq<Slot>)
    | Transformer(celltype: R.Celltype, code: Input, pins: seq<Pin>, config: nat)

  /** The graph, and the Expressions that are refused when they are built. */
  datatype Wired = Wired(nodes: map<Node, Body>, refused: set<Expression>)

  datatype Reason = ByMiswiring | ByUnwired | ByError

  datatype State =
    | Complete(checksum: Checksum)
    | Failed(fault: Fault)
    | Miswired
    | Unwired
    | Blocked(reason: Reason)
    | BlockedAt(reasons: map<Name, Reason>)
    | Waiting
    | Computing

  type States = map<Node, State>

  /** A joined cell's celltype, and the value of its own that its parts are joined into. */
  datatype Stem = Stem(celltype: R.Celltype, value: Option<Checksum>)

  function StateAt(states: States, n: Node): State {
    if n in states then states[n] else Unwired
  }

  // ----- following conversions -----

  datatype Progress = Reached(checksum: Checksum) | Broke(fault: Fault, told: bool) | Stuck

  function Follow(facts: Facts, c: Checksum, runs: seq<Run>): Progress
    decreases |runs|
  {
    if runs == [] then Reached(c)
    else if !runs[0].legal then Broke(ILL_FORMED, true)
    else
      var k := Convert(runs[0].expression, c);
      if k !in facts then Stuck
      else match facts[k]
           case Value(v) => Follow(facts, v, runs[1..])
           case Error(e) => Broke(e, runs[0].told)
  }

  /** The keys looked up on the way. */
  function Followed(facts: Facts, c: Checksum, runs: seq<Run>): set<Key>
    decreases |runs|
  {
    if runs == [] || !runs[0].legal then {}
    else
      var k := Convert(runs[0].expression, c);
      {k} + (if k in facts && facts[k].Value? then Followed(facts, facts[k].checksum, runs[1..]) else {})
  }

  // ----- what an edge delivers -----

  /** Where an evaluation failed: at the edge, recorded as its own or not, or above it. */
  datatype Origin = Here | Untold | Inherited

  datatype Signal =
    | Ready(checksum: Checksum)
    | Awry                       // the edge itself is ill-formed
    | AwryAbove                  // something it hangs on is
    | Unmet                      // something it hangs on has no value
    | Broken(fault: Fault, origin: Origin)   // an evaluation failed
    | Pending

  function Present(reasons: map<Name, Reason>, r: Reason): bool { r in reasons.Values }

  function Passes(state: State): Signal
    requires !state.Complete?
  {
    match state
    case Failed(e) => Broken(e, Inherited)
    case Miswired => AwryAbove
    case Unwired => Unmet
    case Blocked(ByMiswiring) => AwryAbove
    case Blocked(ByUnwired) => Unmet
    case Blocked(ByError) => Broken(0, Inherited)
    case BlockedAt(reasons) =>
      if Present(reasons, ByMiswiring) then AwryAbove
      else if Present(reasons, ByUnwired) then Unmet
      else if Present(reasons, ByError) then Broken(0, Inherited)
      else Unmet
    case Waiting => Pending
    case Computing => Pending
  }

  function Delivers(facts: Facts, states: States, edge: Edge): Signal {
    match edge.wiring
    case Own => Awry
    case Above => AwryAbove
    case Sound =>
      match StateAt(states, edge.source)
      case Complete(c) =>
        (match Follow(facts, c, edge.runs)
         case Reached(v) => Ready(v)
         case Broke(e, told) => Broken(e, if told then Here else Untold)
         case Stuck => Pending)
      case other => Passes(other)
  }

  function Looks(facts: Facts, states: States, edge: Edge): set<Key> {
    var s := StateAt(states, edge.source);
    if edge.wiring.Sound? && s.Complete? then Followed(facts, s.checksum, edge.runs) else {}
  }

  // ----- cells -----

  function Shown(p: Progress): State {
    match p case Reached(c) => Complete(c) case Broke(e, _) => Failed(e) case Stuck => Waiting
  }

  function ProducerState(facts: Facts, value: Option<Checksum>, own: seq<Run>): State {
    if value.None? then Unwired else Shown(Follow(facts, value.value, own))
  }

  /** A whole link: a failed evaluation of the edge is the cell's own failure. */
  function LinkedState(facts: Facts, states: States, edge: Edge, own: seq<Run>): State {
    match Delivers(facts, states, edge)
    case Ready(c) => Shown(Follow(facts, c, own))
    case Awry => Miswired
    case AwryAbove => Blocked(ByMiswiring)
    case Unmet => Blocked(ByUnwired)
    case Broken(e, origin) => if origin.Here? then Failed(e) else Blocked(ByError)
    case Pending => Waiting
  }

  /** A slot's member, once its edge and its own conversion have delivered. */
  function SlotProgress(facts: Facts, states: States, slot: Slot): Progress {
    match Delivers(facts, states, slot.edge)
    case Ready(c) => Follow(facts, c, slot.own)
    case _ => Stuck
  }

  /** The fault of the first slot whose own conversion failed. */
  function SlotFault(facts: Facts, states: States, slots: seq<Slot>): Option<Fault> {
    if slots == [] then None
    else match SlotProgress(facts, states, slots[0])
         case Broke(e, _) => Some(e)
         case _ => SlotFault(facts, states, slots[1..])
  }

  function SlotReason(signal: Signal): Option<Reason> {
    match signal
    case AwryAbove => Some(ByMiswiring)
    case Unmet => Some(ByUnwired)
    case Broken(_, _) => Some(ByError)
    case _ => None
  }

  function Reasons(facts: Facts, states: States, slots: seq<Slot>): map<Name, Reason> {
    if slots == [] then map[]
    else
      var rest := Reasons(facts, states, slots[1..]);
      var r := SlotReason(Delivers(facts, states, slots[0].edge));
      if r.Some? then rest[slots[0].name := r.value] else rest
  }

  predicate AnyAwry(facts: Facts, states: States, slots: seq<Slot>) {
    exists i :: 0 <= i < |slots| && Delivers(facts, states, slots[i].edge).Awry?
  }

  predicate AllReached(facts: Facts, states: States, slots: seq<Slot>) {
    forall i :: 0 <= i < |slots| ==> SlotProgress(facts, states, slots[i]).Reached?
  }

  function Members(facts: Facts, states: States, slots: seq<Slot>): seq<Member>
    requires AllReached(facts, states, slots)
  {
    seq(|slots|, i requires 0 <= i < |slots| => Member(slots[i].name, SlotProgress(facts, states, slots[i]).checksum))
  }

  function Answer(facts: Facts, k: Key, otherwise: State): State {
    if k !in facts then otherwise
    else match facts[k] case Value(c) => Complete(c) case Error(e) => Failed(e)
  }

  /** A folder is joined as a deepfolder. */
  function JoinType(celltype: R.Celltype): R.Celltype { if celltype == R.Folder then R.Deepfolder else celltype }

  function JoinKey(facts: Facts, states: States, root: Stem, slots: seq<Slot>): Key
    requires AllReached(facts, states, slots)
  {
    Join(JoinType(root.celltype), root.value, Members(facts, states, slots))
  }

  function RootProgress(facts: Facts, root: Stem, own: seq<Run>): Progress {
    if root.value.None? then Reached(0) else Follow(facts, root.value.value, own)
  }

  function RootValue(root: Stem, p: Progress): Stem
    requires p.Reached?
  {
    if root.value.None? then root else root.(value := Some(p.checksum))
  }

  function JoinedState(facts: Facts, states: States, root: Stem, own: seq<Run>, slots: seq<Slot>): State {
    var fault := SlotFault(facts, states, slots);
    if fault.Some? then Failed(fault.value)
    else if !AllReached(facts, states, slots) then
      var reasons := Reasons(facts, states, slots);
      if AnyAwry(facts, states, slots) then Miswired
      else if reasons != map[] then BlockedAt(reasons)
      else Waiting
    else match RootProgress(facts, root, own)
         case Broke(e, _) => Failed(e)
         case Stuck => Waiting
         case Reached(_) =>
           Answer(facts, JoinKey(facts, states, RootValue(root, RootProgress(facts, root, own)), slots), Waiting)
  }

  // ----- transformers -----

  /** Why an input is not there, most urgent first. */
  datatype Lack = Ill | NoInput | Behind(reason: Reason) | Later

  function Urgency(l: Lack): nat {
    match l
    case Ill => 0
    case NoInput => 1
    case Behind(ByMiswiring) => 2
    case Behind(ByUnwired) => 3
    case Behind(ByError) => 4
    case Later => 5
  }

  datatype Supply = Given(checksum: Checksum) | Spared | Lacks(lack: Lack)

  function LackOf(signal: Signal): Lack
    requires !signal.Ready?
  {
    match signal
    case Awry => Ill
    case AwryAbove => Behind(ByMiswiring)
    case Unmet => Behind(ByUnwired)
    case Broken(_, _) => Behind(ByError)
    case Pending => Later
  }

  function Converted(p: Progress): Supply {
    match p case Reached(c) => Given(c) case Broke(_, _) => Lacks(Behind(ByError)) case Stuck => Lacks(Later)
  }

  /** Null at an optional pin is no argument, if it could be converted; another pin has to allow it. */
  function NullSupply(pin: Pin): Option<Supply> {
    if pin.optional then
      Some(if pin.own == [] || pin.own[0].legal then Spared else Lacks(Behind(ByError)))
    else if !pin.nullAllowed then Some(Lacks(Behind(ByError)))
    else None
  }

  /** A value that arrives at a pin. */
  function Taken(facts: Facts, pin: Pin, c: Checksum): Supply {
    if c == NULL_CHECKSUM && NullSupply(pin).Some? then NullSupply(pin).value
    else
      var s := Converted(Follow(facts, c, pin.own));
      if s.Given? && s.checksum in pin.unreadable then Lacks(Behind(ByError)) else s
  }

  function TakenKeys(facts: Facts, pin: Pin, c: Checksum): set<Key> {
    if c == NULL_CHECKSUM && NullSupply(pin).Some? then {} else Followed(facts, c, pin.own)
  }

  function SupplyOf(facts: Facts, states: States, pin: Pin): Supply {
    match pin.input
    case Missing => if pin.optional then Spared else Lacks(NoInput)
    case Constant(c) => Taken(facts, pin, c)
    case FromEdge(edge) =>
      match Delivers(facts, states, edge)
      case Ready(c) => Taken(facts, pin, c)
      case other => Lacks(LackOf(other))
  }

  function MoreUrgent(a: Supply, b: Supply): Supply {
    if !a.Lacks? then b else if !b.Lacks? then a
    else if Urgency(b.lack) < Urgency(a.lack) then b else a
  }

  /** The most urgent lack among the inputs; `Spared` if there is none. */
  function Worst(facts: Facts, states: States, pins: seq<Pin>): Supply {
    if pins == [] then Spared
    else MoreUrgent(SupplyOf(facts, states, pins[0]), Worst(facts, states, pins[1..]))
  }

  function Arguments(facts: Facts, states: States, pins: seq<Pin>): seq<Member> {
    if pins == [] then []
    else
      var s := SupplyOf(facts, states, pins[0]);
      (if s.Given? then [Member(pins[0].name, s.checksum)] else []) + Arguments(facts, states, pins[1..])
  }

  function LackState(l: Lack): State {
    match l case Ill => Miswired case NoInput => Unwired case Behind(r) => Blocked(r) case Later => Waiting
  }

  /** The code is an input like the others, first in the list and never optional. */
  function CodePin(code: Input): Pin { Pin(0, code, [], false, true, {}) }

  function ExecuteKey(facts: Facts, states: States, n: Node, code: Input, pins: seq<Pin>, config: nat): Key {
    var c := SupplyOf(facts, states, CodePin(code));
    Execute(n, if c.Given? then c.checksum else 0, Arguments(facts, states, pins), config)
  }

  function TransformerState(facts: Facts, states: States, n: Node, code: Input, pins: seq<Pin>, config: nat): State {
    var worst := Worst(facts, states, [CodePin(code)] + pins);
    if worst.Lacks? then LackState(worst.lack)
    else Answer(facts, ExecuteKey(facts, states, n, code, pins, config), Computing)
  }

  // ----- the rule of a node -----

  /** The rule of a node that reads its sources only; a cell's link has brought its value along. */
  function LocalRule(facts: Facts, states: States, n: Node, body: Body, own: seq<Run>): State {
    match body
    case Sick(_, e) => Failed(e)
    case Producer(_, value, own) => ProducerState(facts, value, own)
    case Linked(_, edge, _) => LinkedState(facts, states, edge, own)
    case Joined(u, value, own, slots) => JoinedState(facts, states, Stem(u, value), own, slots)
    case Transformer(_, code, pins, config) => TransformerState(facts, states, n, code, pins, config)
  }

  function InputEdges(input: Input): set<Edge> {
    if input.FromEdge? then {input.edge} else {}
  }

  function EdgesOf(body: Body): set<Edge> {
    match body
    case Sick(_, _) => {}
    case Producer(_, _, _) => {}
    case Linked(_, edge, _) => {edge}
    case Joined(_, _, _, slots) => set s | s in slots :: s.edge
    case Transformer(_, code, pins, _) => InputEdges(code) + (set p, e | p in pins && e in InputEdges(p.input) :: e)
  }

  // ----- the keys a node demands -----

  function EdgeThenOwn(facts: Facts, states: States, edge: Edge, own: seq<Run>): set<Key> {
    var d := Delivers(facts, states, edge);
    Looks(facts, states, edge) + (if d.Ready? then Followed(facts, d.checksum, own) else {})
  }

  function PinKeys(facts: Facts, states: States, pin: Pin): set<Key> {
    match pin.input
    case Missing => {}
    case Constant(c) => TakenKeys(facts, pin, c)
    case FromEdge(edge) =>
      var d := Delivers(facts, states, edge);
      Looks(facts, states, edge) + (if d.Ready? then TakenKeys(facts, pin, d.checksum) else {})
  }

  /** A slot whose own conversion failed ends the walk. */
  function SlotKeys(facts: Facts, states: States, slots: seq<Slot>): set<Key> {
    if slots == [] then {}
    else EdgeThenOwn(facts, states, slots[0].edge, slots[0].own)
           + (if SlotProgress(facts, states, slots[0]).Broke? then {} else SlotKeys(facts, states, slots[1..]))
  }

  function RootKeys(facts: Facts, root: Stem, own: seq<Run>): set<Key> {
    if root.value.Some? then Followed(facts, root.value.value, own) else {}
  }

  function JoinDemands(facts: Facts, states: States, root: Stem, own: seq<Run>,
      slots: seq<Slot>): set<Key> {
    SlotKeys(facts, states, slots)
    + (if !AllReached(facts, states, slots) then {}
       else
         RootKeys(facts, root, own)
         + (if RootProgress(facts, root, own).Reached?
            then {JoinKey(facts, states, RootValue(root, RootProgress(facts, root, own)), slots)} else {}))
  }

  function PinsKeys(facts: Facts, states: States, pins: seq<Pin>): set<Key> {
    if pins == [] then {} else PinKeys(facts, states, pins[0]) + PinsKeys(facts, states, pins[1..])
  }

  function LocalDemands(facts: Facts, states: States, n: Node, body: Body, own: seq<Run>): set<Key> {
    match body
    case Sick(_, _) => {}
    case Producer(_, value, own) => if value.Some? then Followed(facts, value.value, own) else {}
    case Linked(_, edge, _) => EdgeThenOwn(facts, states, edge, own)
    case Joined(u, value, own, slots) => JoinDemands(facts, states, Stem(u, value), own, slots)
    case Transformer(_, code, pins, config) =>
      PinsKeys(facts, states, [CodePin(code)] + pins)
      + (if Worst(facts, states, [CodePin(code)] + pins).Lacks? then {}
        else {ExecuteKey(facts, states, n, code, pins, config)})
  }

  // ----- reading through a chain of cells -----

  function NodeType(g: Wired, n: Node): R.Celltype {
    if n in g.nodes then g.nodes[n].celltype else R.Mixed
  }

  function RunOf(g: Wired, e: Expression): Run { Run(e, e !in g.refused, true) }

  /** The member celltype where a path over `celltype` must stop at a deep step. */
  function DeepBarrier(celltype: R.Celltype, path: R.Path, target: R.Celltype): Option<R.Celltype> {
    if !R.IsDeep(celltype) || path == [] then None
    else
      var member := R.Projected(celltype, path[..1]);
      if R.IsDeep(member) then None
      else if |path| == 1 && target in {member, R.Named("checksum")} then None
      else Some(member)
  }

  /** A projection is one evaluation, or two where it crosses a deep step. */
  function ProjectionRuns(g: Wired, celltype: R.Celltype, path: R.Path, target: R.Celltype, check: nat): seq<Run> {
    match DeepBarrier(celltype, path, target)
    case Some(member) =>
      [RunOf(g, Expression(path[..1], celltype, member, 0)), RunOf(g, Expression(path[1..], member, target, check))]
    case None => [RunOf(g, Expression(path, celltype, target, check))]
  }

  /** The cell that `n`'s value is read from, one further up, without a conversion. */
  function Upward(g: Wired, n: Node): Option<Node> {
    if n !in g.nodes || !g.nodes[n].Linked? then None
    else
      var edge := g.nodes[n].edge;
      if edge.converts || edge.source !in g.nodes || g.nodes[edge.source].Transformer? then None
      else if R.Projected(NodeType(g, edge.source), edge.path) != g.nodes[n].celltype then None
      else if edge.path != [] && R.IsDeep(NodeType(g, edge.source)) then None
      else Some(edge.source)
  }

  /** Where a projection starts: a value, its celltype, and the path over it. */
  datatype Root = Root(checksum: Checksum, celltype: R.Celltype, path: R.Path)

  /** The furthest complete cell up the chain from `n`, with the whole path below it. */
  function Fused(g: Wired, states: States, n: Node, path: R.Path, seen: set<Node>): Root
    requires StateAt(states, n).Complete?
    decreases g.nodes.Keys - seen
  {
    var up := Upward(g, n);
    if up.Some? && n !in seen && up.value !in seen + {n} && StateAt(states, up.value).Complete?
    then Fused(g, states, up.value, g.nodes[n].edge.path + path, seen + {n})
    else Root(StateAt(states, n).checksum, NodeType(g, n), path)
  }

  /** The cells a projection of `n` may be read from. */
  function Chain(g: Wired, n: Node, seen: set<Node>): set<Node>
    decreases g.nodes.Keys - seen
  {
    var up := Upward(g, n);
    {n} + (if up.Some? && n !in seen && up.value !in seen + {n} then Chain(g, up.value, seen + {n}) else {})
  }

  /** A cell fed by a path without conversions reads its value through the chain. */
  predicate ReadsThrough(body: Body) {
    body.Linked? && !body.edge.converts && body.edge.path != []
  }

  /** Such a cell, once its source has a value, is like one with the chain's first value and the
      whole projection as its own. */
  function Rooted(g: Wired, states: States, body: Body): Body {
    if ReadsThrough(body) && body.edge.wiring.Sound? && StateAt(states, body.edge.source).Complete? then
      var root := Fused(g, states, body.edge.source, body.edge.path, {});
      Producer(body.celltype, Some(root.checksum),
        ProjectionRuns(g, root.celltype, root.path, body.celltype, body.check))
    else body
  }

  /** A cell's own conversion of a whole value of another celltype. */
  function OwnOf(g: Wired, body: Body): seq<Run> {
    if body.Linked? && !body.edge.converts && body.edge.path == [] && NodeType(g, body.edge.source) != body.celltype
    then ProjectionRuns(g, NodeType(g, body.edge.source), [], body.celltype, body.check)
    else []
  }

  function Rule(g: Wired, facts: Facts, states: States, n: Node): State
    requires n in g.nodes
  {
    LocalRule(facts, states, n, Rooted(g, states, g.nodes[n]), OwnOf(g, g.nodes[n]))
  }

  function Demands(g: Wired, facts: Facts, states: States, n: Node): set<Key>
    requires n in g.nodes
  {
    LocalDemands(facts, states, n, Rooted(g, states, g.nodes[n]), OwnOf(g, g.nodes[n]))
  }

  /** The nodes whose states a node's rule reads. */
  function Sources(body: Body): set<Node> {
    set e | e in EdgesOf(body) :: e.source
  }

  function Reads(g: Wired, body: Body): set<Node> {
    Sources(body) + (if ReadsThrough(body) then Chain(g, body.edge.source, {}) else {})
  }

  // ----- what a rule reads -----

  predicate Agree(f: Facts, g: Facts, keys: set<Key>) {
    forall k :: k in keys ==> (k in f <==> k in g) && (k in f ==> f[k] == g[k])
  }

  lemma {:induction false} FollowReads(f: Facts, g: Facts, c: Checksum, runs: seq<Run>)
    requires Agree(f, g, Followed(f, c, runs))
    ensures Follow(f, c, runs) == Follow(g, c, runs) && Followed(f, c, runs) == Followed(g, c, runs)
    decreases |runs|
  {
    if runs != [] && runs[0].legal {
      var k := Convert(runs[0].expression, c);
      assert k in Followed(f, c, runs);
      if k in f && f[k].Value? {
        FollowReads(f, g, f[k].checksum, runs[1..]);
      }
    }
  }

  lemma DeliversReads(f: Facts, g: Facts, s: States, t: States, edge: Edge)
    requires StateAt(s, edge.source) == StateAt(t, edge.source) && Agree(f, g, Looks(f, s, edge))
    ensures Delivers(f, s, edge) == Delivers(g, t, edge) && Looks(f, s, edge) == Looks(g, t, edge)
  {
    var st := StateAt(s, edge.source);
    if st.Complete? && edge.wiring.Sound? {
      FollowReads(f, g, st.checksum, edge.runs);
    }
  }

  lemma EdgeOwnReads(f: Facts, g: Facts, s: States, t: States, edge: Edge, own: seq<Run>)
    requires StateAt(s, edge.source) == StateAt(t, edge.source) && Agree(f, g, EdgeThenOwn(f, s, edge, own))
    ensures Delivers(f, s, edge) == Delivers(g, t, edge) && EdgeThenOwn(f, s, edge, own) == EdgeThenOwn(g, t, edge, own)
    ensures Delivers(f, s, edge).Ready? ==>
      Follow(f, Delivers(f, s, edge).checksum, own) == Follow(g, Delivers(f, s, edge).checksum, own)
  {
    DeliversReads(f, g, s, t, edge);
    var d := Delivers(f, s, edge);
    if d.Ready? {
      FollowReads(f, g, d.checksum, own);
    }
  }

  /** The states of the sources of these edges are the same. */
  ghost predicate SameSources(s: States, t: States, edges: set<Edge>) {
    forall e :: e in edges ==> StateAt(s, e.source) == StateAt(t, e.source)
  }

  lemma {:induction false} SlotsRead(f: Facts, g: Facts, s: States, t: States, slots: seq<Slot>)
    requires forall i :: 0 <= i < |slots| ==> StateAt(s, slots[i].edge.source) == StateAt(t, slots[i].edge.source)
    requires Agree(f, g, SlotKeys(f, s, slots))
    ensures SlotFault(f, s, slots) == SlotFault(g, t, slots) && SlotKeys(f, s, slots) == SlotKeys(g, t, slots)
    ensures SlotFault(f, s, slots).None? ==>
              forall i :: 0 <= i < |slots| ==>
                (SlotProgress(f, s, slots[i]) == SlotProgress(g, t, slots[i])
                  && Delivers(f, s, slots[i].edge) == Delivers(g, t, slots[i].edge))
  {
    hide Follow, Followed, Looks;
    if slots != [] {
      EdgeOwnReads(f, g, s, t, slots[0].edge, slots[0].own);
      if !SlotProgress(f, s, slots[0]).Broke? {
        assert forall k :: k in SlotKeys(f, s, slots[1..]) ==> k in SlotKeys(f, s, slots);
        SlotsRead(f, g, s, t, slots[1..]);
        assert SlotFault(f, s, slots) == SlotFault(f, s, slots[1..]);
        forall i | 0 <= i < |slots| && SlotFault(f, s, slots).None?
          ensures SlotProgress(f, s, slots[i]) == SlotProgress(g, t, slots[i])
          ensures Delivers(f, s, slots[i].edge) == Delivers(g, t, slots[i].edge)
        {
          if i > 0 {
            assert slots[i] == slots[1..][i - 1];
          }
        }
      }
    }
  }

  lemma {:induction false} ReasonsRead(f: Facts, g: Facts, s: States, t: States, slots: seq<Slot>)
    requires forall i :: 0 <= i < |slots| ==> Delivers(f, s, slots[i].edge) == Delivers(g, t, slots[i].edge)
    ensures Reasons(f, s, slots) == Reasons(g, t, slots)
  {
    if slots != [] {
      ReasonsRead(f, g, s, t, slots[1..]);
    }
  }

  lemma RootReads(f: Facts, g: Facts, root: Stem, own: seq<Run>)
    requires Agree(f, g, RootKeys(f, root, own))
    ensures RootProgress(f, root, own) == RootProgress(g, root, own) && RootKeys(f, root, own) == RootKeys(g, root, own)
  {
    if root.value.Some? {
      FollowReads(f, g, root.value.value, own);
    }
  }

  lemma JoinReads(f: Facts, g: Facts, s: States, t: States, root: Stem, own: seq<Run>, slots: seq<Slot>)
    requires forall i :: 0 <= i < |slots| ==> StateAt(s, slots[i].edge.source) == StateAt(t, slots[i].edge.source)
    requires Agree(f, g, JoinDemands(f, s, root, own, slots))
    ensures JoinedState(f, s, root, own, slots) == JoinedState(g, t, root, own, slots)
    ensures JoinDemands(f, s, root, own, slots) == JoinDemands(g, t, root, own, slots)
  {
    hide *;
    JoinParts(f, g, s, root, own, slots);
    SlotsRead(f, g, s, t, slots);
    FaultIsNotReached(f, s, slots);
    FaultIsNotReached(g, t, slots);
    if SlotFault(f, s, slots).None? {
      ReasonsRead(f, g, s, t, slots);
      SlotsSame(f, g, s, t, slots);
      if AllReached(f, s, slots) {
        RootReads(f, g, root, own);
        RootAnswers(f, g, s, t, root, own, slots);
      }
      JoinSame(f, g, s, t, root, own, slots);
    } else {
      JoinFaults(f, s, root, own, slots);
      JoinFaults(g, t, root, own, slots);
    }
  }

  lemma JoinParts(f: Facts, g: Facts, s: States, root: Stem, own: seq<Run>, slots: seq<Slot>)
    requires Agree(f, g, JoinDemands(f, s, root, own, slots))
    ensures Agree(f, g, SlotKeys(f, s, slots))
    ensures AllReached(f, s, slots) ==> Agree(f, g, RootKeys(f, root, own))
    ensures AllReached(f, s, slots) && RootProgress(f, root, own).Reached? ==>
              Agree(f, g, {JoinKey(f, s, RootValue(root, RootProgress(f, root, own)), slots)})
  {
    hide SlotKeys, RootKeys, AllReached, RootProgress, JoinKey;
  }

  lemma SlotsSame(f: Facts, g: Facts, s: States, t: States, slots: seq<Slot>)
    requires forall i :: 0 <= i < |slots| ==>
               (SlotProgress(f, s, slots[i]) == SlotProgress(g, t, slots[i])
                 && Delivers(f, s, slots[i].edge) == Delivers(g, t, slots[i].edge))
    ensures AllReached(f, s, slots) == AllReached(g, t, slots) && AnyAwry(f, s, slots) == AnyAwry(g, t, slots)
    ensures AllReached(f, s, slots) ==> Members(f, s, slots) == Members(g, t, slots)
  {
    hide SlotProgress, Delivers;
  }

  lemma JoinFaults(f: Facts, s: States, root: Stem, own: seq<Run>, slots: seq<Slot>)
    requires SlotFault(f, s, slots).Some? && exists i :: 0 <= i < |slots| && SlotProgress(f, s, slots[i]).Broke?
    ensures JoinedState(f, s, root, own, slots) == Failed(SlotFault(f, s, slots).value)
    ensures JoinDemands(f, s, root, own, slots) == SlotKeys(f, s, slots)
  {
    hide SlotProgress, SlotFault, SlotKeys;
  }

  lemma JoinSame(f: Facts, g: Facts, s: States, t: States, root: Stem, own: seq<Run>, slots: seq<Slot>)
    requires SlotFault(f, s, slots).None? && SlotFault(g, t, slots).None?
    requires SlotKeys(f, s, slots) == SlotKeys(g, t, slots)
    requires Reasons(f, s, slots) == Reasons(g, t, slots)
    requires AllReached(f, s, slots) == AllReached(g, t, slots) && AnyAwry(f, s, slots) == AnyAwry(g, t, slots)
    requires AllReached(f, s, slots) ==>
               && RootProgress(f, root, own) == RootProgress(g, root, own)
               && RootKeys(f, root, own) == RootKeys(g, root, own)
               && (RootProgress(f, root, own).Reached? ==>
                     var k := JoinKey(f, s, RootValue(root, RootProgress(f, root, own)), slots);
                     k == JoinKey(g, t, RootValue(root, RootProgress(g, root, own)), slots)
                       && Answer(f, k, Waiting) == Answer(g, k, Waiting))
    ensures JoinedState(f, s, root, own, slots) == JoinedState(g, t, root, own, slots)
    ensures JoinDemands(f, s, root, own, slots) == JoinDemands(g, t, root, own, slots)
  {
    hide SlotFault, SlotKeys, Reasons, AllReached, AnyAwry, RootProgress, RootKeys, JoinKey, Answer;
  }

  lemma RootAnswers(f: Facts, g: Facts, s: States, t: States, root: Stem, own: seq<Run>, slots: seq<Slot>)
    requires AllReached(f, s, slots) && AllReached(g, t, slots) && Members(f, s, slots) == Members(g, t, slots)
    requires RootProgress(f, root, own) == RootProgress(g, root, own)
    requires RootProgress(f, root, own).Reached? ==>
               Agree(f, g, {JoinKey(f, s, RootValue(root, RootProgress(f, root, own)), slots)})
    ensures RootProgress(f, root, own).Reached? ==>
              var k := JoinKey(f, s, RootValue(root, RootProgress(f, root, own)), slots);
              k == JoinKey(g, t, RootValue(root, RootProgress(g, root, own)), slots)
                && Answer(f, k, Waiting) == Answer(g, k, Waiting)
  {
    hide RootProgress, Members, AllReached;
    if RootProgress(f, root, own).Reached? {
      var k := JoinKey(f, s, RootValue(root, RootProgress(f, root, own)), slots);
      assert k in {k};
    }
  }

  lemma {:induction false} FaultIsNotReached(facts: Facts, states: States, slots: seq<Slot>)
    ensures SlotFault(facts, states, slots).Some? <==>
      exists i :: 0 <= i < |slots| && SlotProgress(facts, states, slots[i]).Broke?
  {
    if slots != [] {
      FaultIsNotReached(facts, states, slots[1..]);
      if SlotProgress(facts, states, slots[0]).Broke? {
      } else if SlotFault(facts, states, slots).Some? {
        var i :| 0 <= i < |slots| - 1 && SlotProgress(facts, states, slots[1..][i]).Broke?;
        assert slots[i + 1] == slots[1..][i];
      } else {
        forall i | 0 <= i < |slots| ensures !SlotProgress(facts, states, slots[i]).Broke? {
          if i > 0 {
            assert slots[i] == slots[1..][i - 1];
          }
        }
      }
    }
  }

  lemma TakenReads(f: Facts, g: Facts, pin: Pin, c: Checksum)
    requires Agree(f, g, TakenKeys(f, pin, c))
    ensures Taken(f, pin, c) == Taken(g, pin, c) && TakenKeys(f, pin, c) == TakenKeys(g, pin, c)
  {
    if !(c == NULL_CHECKSUM && NullSupply(pin).Some?) {
      FollowReads(f, g, c, pin.own);
    }
  }

  lemma PinReads(f: Facts, g: Facts, s: States, t: States, pin: Pin)
    requires pin.input.FromEdge? ==> StateAt(s, pin.input.edge.source) == StateAt(t, pin.input.edge.source)
    requires Agree(f, g, PinKeys(f, s, pin))
    ensures SupplyOf(f, s, pin) == SupplyOf(g, t, pin) && PinKeys(f, s, pin) == PinKeys(g, t, pin)
  {
    match pin.input {
      case Missing =>
      case Constant(c) => TakenReads(f, g, pin, c);
      case FromEdge(edge) =>
        DeliversReads(f, g, s, t, edge);
        var d := Delivers(f, s, edge);
        if d.Ready? {
          TakenReads(f, g, pin, d.checksum);
        }
    }
  }

  lemma {:induction false} PinsRead(f: Facts, g: Facts, s: States, t: States, pins: seq<Pin>)
    requires forall i :: 0 <= i < |pins| && pins[i].input.FromEdge? ==>
      StateAt(s, pins[i].input.edge.source) == StateAt(t, pins[i].input.edge.source)
    requires Agree(f, g, PinsKeys(f, s, pins))
    ensures Worst(f, s, pins) == Worst(g, t, pins) && Arguments(f, s, pins) == Arguments(g, t, pins)
    ensures PinsKeys(f, s, pins) == PinsKeys(g, t, pins)
    ensures forall i :: 0 <= i < |pins| ==> SupplyOf(f, s, pins[i]) == SupplyOf(g, t, pins[i])
  {
    if pins != [] {
      PinReads(f, g, s, t, pins[0]);
      PinsRead(f, g, s, t, pins[1..]);
      forall i | 0 <= i < |pins| ensures SupplyOf(f, s, pins[i]) == SupplyOf(g, t, pins[i]) {
        if i > 0 {
          assert pins[i] == pins[1..][i - 1];
        }
      }
    }
  }

  lemma TransformerReads(f: Facts, g: Facts, s: States, t: States, n: Node, body: Body)
    requires body.Transformer? && SameSources(s, t, EdgesOf(body)) && Agree(f, g, LocalDemands(f, s, n, body, []))
    ensures LocalRule(f, s, n, body, []) == LocalRule(g, t, n, body, [])
    ensures LocalDemands(f, s, n, body, []) == LocalDemands(g, t, n, body, [])
  {
    var all := [CodePin(body.code)] + body.pins;
    assert all[0] == CodePin(body.code) && all[1..] == body.pins;
    forall i | 0 <= i < |all| && all[i].input.FromEdge?
      ensures StateAt(s, all[i].input.edge.source) == StateAt(t, all[i].input.edge.source)
    {
      InputIsAnEdge(body, i);
    }
    hide SameSources, EdgesOf, SupplyOf, PinKeys, PinsKeys, Worst, Arguments, Answer;
    assert Agree(f, g, PinsKeys(f, s, all));
    PinsRead(f, g, s, t, all);
    assert SupplyOf(f, s, all[0]) == SupplyOf(g, t, all[0]);
    RestOfPins(f, s, all);
    PinsRead(f, g, s, t, body.pins);
    var k := ExecuteKey(f, s, n, body.code, body.pins, body.config);
    assert k == ExecuteKey(g, t, n, body.code, body.pins, body.config);
    AnswerReads(f, g, k, Computing);
  }

  lemma RestOfPins(f: Facts, s: States, pins: seq<Pin>)
    requires pins != []
    ensures PinsKeys(f, s, pins[1..]) <= PinsKeys(f, s, pins)
  {
  }

  lemma AnswerReads(f: Facts, g: Facts, k: Key, otherwise: State)
    ensures Agree(f, g, {k}) ==> Answer(f, k, otherwise) == Answer(g, k, otherwise)
  {
    if Agree(f, g, {k}) {
      assert k in {k};
    }
  }

  lemma InputIsAnEdge(body: Body, i: nat)
    requires body.Transformer? && i < |[CodePin(body.code)] + body.pins|
    requires ([CodePin(body.code)] + body.pins)[i].input.FromEdge?
    ensures ([CodePin(body.code)] + body.pins)[i].input.edge in EdgesOf(body)
  {
    var pin := ([CodePin(body.code)] + body.pins)[i];
    if i > 0 {
      assert pin == body.pins[i - 1] && pin in body.pins && pin.input.edge in InputEdges(pin.input);
    }
  }

  lemma LocalRuleReads(f: Facts, g: Facts, s: States, t: States, n: Node, body: Body, own: seq<Run>)
    requires SameSources(s, t, EdgesOf(body)) && Agree(f, g, LocalDemands(f, s, n, body, own))
    ensures LocalRule(f, s, n, body, own) == LocalRule(g, t, n, body, own)
    ensures LocalDemands(f, s, n, body, own) == LocalDemands(g, t, n, body, own)
  {
    match body {
      case Sick(_, _) =>
      case Producer(_, value, own) =>
        if value.Some? {
          FollowReads(f, g, value.value, own);
        }
      case Linked(_, edge, _) => EdgeOwnReads(f, g, s, t, edge, own);
      case Joined(u, value, own, slots) =>
        assert forall i :: 0 <= i < |slots| ==> slots[i] in slots && slots[i].edge in EdgesOf(body);
        JoinReads(f, g, s, t, Stem(u, value), own, slots);
      case Transformer(_, _, _, _) => TransformerReads(f, g, s, t, n, body);
    }
  }

  /** Two assignments of states are the same on these nodes. */
  ghost predicate SameOn(s: States, t: States, nodes: set<Node>) {
    forall n :: n in nodes ==> StateAt(s, n) == StateAt(t, n)
  }

  lemma {:induction false} FusedReads(g: Wired, s: States, t: States, n: Node, path: R.Path, seen: set<Node>)
    requires SameOn(s, t, Chain(g, n, seen)) && StateAt(s, n).Complete?
    ensures StateAt(t, n).Complete? && Fused(g, s, n, path, seen) == Fused(g, t, n, path, seen)
    decreases g.nodes.Keys - seen
  {
    assert n in Chain(g, n, seen);
    var up := Upward(g, n);
    if up.Some? && n !in seen && up.value !in seen + {n} {
      assert up.value in Chain(g, up.value, seen + {n});
      assert SameOn(s, t, Chain(g, up.value, seen + {n}));
      if StateAt(s, up.value).Complete? {
        FusedReads(g, s, t, up.value, g.nodes[n].edge.path + path, seen + {n});
      }
    }
  }

  lemma RootedReads(g: Wired, s: States, t: States, body: Body)
    requires SameOn(s, t, Reads(g, body))
    ensures Rooted(g, s, body) == Rooted(g, t, body) && SameSources(s, t, EdgesOf(Rooted(g, s, body)))
  {
    forall e | e in EdgesOf(body) ensures StateAt(s, e.source) == StateAt(t, e.source) {
      assert e.source in Sources(body);
    }
    if ReadsThrough(body) && StateAt(s, body.edge.source).Complete? {
      FusedReads(g, s, t, body.edge.source, body.edge.path, {});
    }
  }

  /** A node's state depends on its sources' states, on those of the cells it reads a path through,
      and on the facts it demands. */
  lemma RuleReads(g: Wired, f: Facts, h: Facts, s: States, t: States, n: Node)
    requires n in g.nodes && SameOn(s, t, Reads(g, g.nodes[n])) && Agree(f, h, Demands(g, f, s, n))
    ensures Rule(g, f, s, n) == Rule(g, h, t, n) && Demands(g, f, s, n) == Demands(g, h, t, n)
  {
    RootedReads(g, s, t, g.nodes[n]);
    hide Rooted, LocalRule, LocalDemands, Reads, EdgesOf;
    LocalRuleReads(f, h, s, t, n, Rooted(g, s, g.nodes[n]), OwnOf(g, g.nodes[n]));
  }
}
