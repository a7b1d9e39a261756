/** Saving a graph's edges and loading them back.

    Miswiring is never stored: it is worked out from the recorded chain and the current
    celltypes, so a running graph and a reloaded one must come to the same answer. */
module SaveReload {
  import opened Wrappers
  import opened Recipes
  import opened Symbols

  datatype NodeInfo = Cell(celltype: Celltype) | Transformer(pins: map<string, Celltype>)

  type Graph = map<NodePath, NodeInfo>

  /** An edge with its endpoints resolved to a node and a path below it. */
  datatype Edge = Edge(source: NodePath, sourcePath: Path, target: NodePath, targetPath: Path,
                       converts: bool, steps: seq<Step>, chain: seq<Recipe>)

  function PinCelltype(pins: map<string, Celltype>, pin: string): Celltype {
    if pin in pins then pins[pin] else Mixed
  }

  function NodeCelltype(graph: Graph, node: NodePath): Celltype
    requires node in graph
  {
    match graph[node]
    case Cell(celltype) => celltype
    case Transformer(pins) => PinCelltype(pins, "result")
  }

  function TargetCelltype(graph: Graph, edge: Edge): Option<Celltype>
    requires edge.target in graph
  {
    match graph[edge.target]
    case Cell(celltype) => Some(Projected(celltype, edge.targetPath))
    case Transformer(pins) =>
      if |edge.targetPath| == 1 && edge.targetPath[0].Key? && edge.targetPath != [Key("code")]
      then Some(PinCelltype(pins, edge.targetPath[0].key)) else None
  }

  // ----- miswiring of a chain -----

  /** The celltype that link `i` reads: its named source's current one, else the recorded one. */
  function ReadAt(graph: Graph, chain: seq<Recipe>, i: nat): Option<Celltype>
    requires i < |chain|
  {
    match chain[i].source
    case Node(path) => if path in graph then Some(NodeCelltype(graph, path)) else None
    case Anonymous(_) => if i == 0 then None else Some(chain[i - 1].celltype)
  }

  ghost predicate LinkDefect(graph: Graph, chain: seq<Recipe>, i: nat)
    requires i < |chain|
  {
    ReadAt(graph, chain, i).Some? && LinkMiswired(ReadAt(graph, chain, i).value, chain[i].celltype, chain[i].path)
  }

  /** Chains start at a named node and stay anonymous after it. */
  predicate Rooted(chain: seq<Recipe>) {
    forall i :: 0 <= i < |chain| ==> (chain[i].source.Node? <==> i == 0)
  }

  /** Some recorded link is ill-formed, read at the root's current celltype. */
  method ChainMiswired(graph: Graph, chain: seq<Recipe>) returns (miswired: bool)
    requires Rooted(chain)
    ensures miswired <==>
      (chain != [] && chain[0].source.path in graph && exists i :: 0 <= i < |chain| && LinkDefect(graph, chain, i))
  {
    var current: Option<Celltype> := None;
    for i := 0 to |chain|
      invariant i > 0 ==> chain[0].source.path in graph && current == Some(chain[i - 1].celltype)
      invariant forall j :: 0 <= j < i ==> !LinkDefect(graph, chain, j)
    {
      if chain[i].source.Node? {
        if chain[i].source.path !in graph {
          return false;
        }
        current := Some(NodeCelltype(graph, chain[i].source.path));
      }
      assert current == ReadAt(graph, chain, i);
      if LinkMiswired(current.value, chain[i].celltype, chain[i].path) {
        assert LinkDefect(graph, chain, i);
        return true;
      }
      current := Some(chain[i].celltype);
    }
    return false;
  }

  ghost predicate ChainDefect(graph: Graph, chain: seq<Recipe>) {
    chain != [] && chain[0].source.Node? && chain[0].source.path in graph &&
    exists i :: 0 <= i < |chain| && LinkDefect(graph, chain, i)
  }

  predicate LooksThrough(graph: Graph, edge: Edge)
    requires edge.target in graph
  {
    |edge.chain| == 1 && edge.chain[0].source.Node? && edge.chain[0].source.path in graph &&
    !(edge.converts && edge.targetPath != [] && graph[edge.target].Cell? && IsDeep(graph[edge.target].celltype)) &&
    ((edge.chain[0].path != [] && !edge.converts) ||
     (edge.chain[0].path == [] && TargetCelltype(graph, edge) == Some(edge.chain[0].celltype)))
  }

  predicate ReadsAsOneLink(graph: Graph, edge: Edge)
    requires edge.target in graph && LooksThrough(graph, edge)
  {
    var link := edge.chain[0];
    link.path == [] || |AnonymousLinks(NodeCelltype(graph, link.source.path), link.path, [])| == 1
  }

  datatype Miswiring = Fine | Miswired | BlockedByMiswiring

  ghost function EdgeMiswiring(graph: Graph, edge: Edge): Miswiring
    requires edge.target in graph
  {
    if LooksThrough(graph, edge) then
      if !ReadsAsOneLink(graph, edge) then Miswired
      else
        var link, target := edge.chain[0], TargetCelltype(graph, edge);
        if link.path != [] && target.Some? && !IsDeep(target.value)
           && LinkMiswired(NodeCelltype(graph, link.source.path), target.value, link.path)
        then Miswired else Fine
    else if ChainDefect(graph, edge.chain) then BlockedByMiswiring
    else Fine
  }

  // ----- what every stored edge satisfies -----

  function ChainPath(chain: seq<Recipe>): Path {
    if chain == [] then [] else ChainPath(chain[..|chain| - 1]) + chain[|chain| - 1].path
  }

  /** What `register_edge_symbols` leaves on an edge: its chain spells its source path, hangs
      together through the symbol table, and a lone path link comes without a conversion. */
  ghost predicate Stored(table: Table, edge: Edge) {
    && ChainPath(edge.chain) == edge.sourcePath
    && (edge.chain != [] ==> edge.chain[0].source == Node(edge.source))
    && Linked(table, edge.chain)
    && (edge.chain == [] ==> !edge.converts)
    && (|edge.chain| == 1 && edge.chain[0].path != [] ==> !edge.converts)
  }

  ghost predicate Linked(table: Table, chain: seq<Recipe>) {
    forall i :: 0 <= i < |chain| ==>
      && chain[i] in table
      && (i == 0 ==> chain[i].source.Node?)
      && (i > 0 ==> chain[i - 1] in table && chain[i].source == Anonymous(table[chain[i - 1]]))
  }

  function LinksOf(chain: seq<Recipe>): seq<Link> {
    seq(|chain|, i requires 0 <= i < |chain| => Link(chain[i].celltype, chain[i].path))
  }

  lemma {:induction false} ChainPathOfLinks(chain: seq<Recipe>)
    ensures ChainPath(chain) == ConcatPaths(LinksOf(chain))
  {
    if chain != [] {
      var init, last := chain[..|chain| - 1], chain[|chain| - 1];
      ChainPathOfLinks(init);
      assert LinksOf(chain) == LinksOf(init) + [Link(last.celltype, last.path)];
      ConcatPathsConcat(LinksOf(init), [Link(last.celltype, last.path)]);
      OneLinkContent(Link(last.celltype, last.path));
    }
  }

  /** Adding an edge records its links; the result is well stored and the table only grows. */
  method Register(symbols: SymbolTable, graph: Graph, edge: Edge) returns (stored: Edge)
    requires symbols.Valid() && edge.source in graph && edge.chain == []
    requires edge.converts <==> edge.steps != []
    modifies symbols
    ensures symbols.Valid() && Extends(old(symbols.symbols), symbols.symbols)
    ensures stored == edge.(chain := stored.chain)
    ensures LinksOf(stored.chain) == AnonymousLinks(NodeCelltype(graph, edge.source), edge.sourcePath, edge.steps)
    ensures Stored(symbols.symbols, stored)
  {
    var links := ComputeAnonymousLinks(NodeCelltype(graph, edge.source), edge.sourcePath, edge.steps);
    AnonymousLinksContent(NodeCelltype(graph, edge.source), edge.sourcePath, edge.steps);
    var chain := symbols.AssignChain(edge.source, links);
    stored := edge.(chain := chain);
    assert LinksOf(chain) == links;
    ChainPathOfLinks(chain);
    if |chain| <= 1 && edge.converts {
      LoneLink(links, edge.steps);
    }
  }

  /** A single link that contains a conversion is that conversion. */
  lemma LoneLink(links: seq<Link>, steps: seq<Step>)
    requires |links| <= 1 && steps != [] && Conversions(links) == CelltypesOf(SortSteps(steps))
    ensures |links| == 1 && links[0].path == []
  {
    assert |CelltypesOf(SortSteps(steps))| > 0;
    if |links| == 1 {
      assert links == [links[0]];
      OneLinkContent(links[0]);
    }
  }

  // ----- saving -----

  datatype Reference = Direct(node: NodePath, path: Path) | BySymbol(symbol: Symbol)

  /** A saved graph's anonymous entries: each symbol with the recipe it stands for. */
  type Entries = map<Symbol, Recipe>

  predicate Collapses(graph: Graph, edge: Edge)
    requires edge.target in graph
  {
    edge.chain == [] || (LooksThrough(graph, edge) && ReadsAsOneLink(graph, edge))
  }

  ghost predicate Names(table: Table, entries: Entries) {
    forall s :: s in entries ==> entries[s] in table && table[entries[s]] == s
  }

  ghost predicate Covers(table: Table, entries: Entries, chain: seq<Recipe>) {
    forall i :: 0 <= i < |chain| ==>
      chain[i] in table && table[chain[i]] in entries && entries[table[chain[i]]] == chain[i]
  }

  ghost predicate Grounded(graph: Graph, entries: Entries) {
    forall s :: s in entries && entries[s].source.Node? ==> entries[s].source.path in graph
  }

  predicate StartsIn(graph: Graph, chain: seq<Recipe>) {
    chain != [] && chain[0].source.Node? && chain[0].source.path in graph
  }

  method SaveChain(table: Table, graph: Graph, entries: Entries, chain: seq<Recipe>)
      returns (entries': Entries, reference: Reference)
    requires Injective(table) && Linked(table, chain) && StartsIn(graph, chain)
    requires Names(table, entries) && Grounded(graph, entries)
    ensures Names(table, entries') && Covers(table, entries', chain) && Grounded(graph, entries')
    ensures forall s :: s in entries ==> s in entries' && entries'[s] == entries[s]
    ensures reference == BySymbol(table[chain[|chain| - 1]])
  {
    entries' := entries;
    reference := Direct([], []);
    for i := 0 to |chain|
      invariant Names(table, entries') && Covers(table, entries', chain[..i]) && Grounded(graph, entries')
      invariant forall s :: s in entries ==> s in entries' && entries'[s] == entries[s]
      invariant i > 0 ==> reference == BySymbol(table[chain[i - 1]])
    {
      var symbol := table[chain[i]];
      assert symbol in entries' ==> entries'[symbol] == chain[i];
      assert forall j :: 0 <= j < i ==> chain[..i][j] == chain[j];
      entries' := entries'[symbol := chain[i]];
      reference := BySymbol(symbol);
    }
    assert chain[..|chain|] == chain;
  }

  ghost predicate SavedAs(table: Table, graph: Graph, edge: Edge, entries: Entries, reference: Reference)
    requires edge.target in graph && Stored(table, edge)
  {
    if Collapses(graph, edge) then reference == Direct(edge.source, edge.sourcePath)
    else reference == BySymbol(table[edge.chain[|edge.chain| - 1]]) && Covers(table, entries, edge.chain)
  }

  /** The references of a graph's edges, and one table of entries that covers every chain saved. */
  method SaveGraph(table: Table, graph: Graph, edges: seq<Edge>) returns (references: seq<Reference>, entries: Entries)
    requires Injective(table)
    requires forall i :: 0 <= i < |edges| ==>
      edges[i].source in graph && edges[i].target in graph && Stored(table, edges[i])
    ensures |references| == |edges| && Names(table, entries) && Grounded(graph, entries)
    ensures forall i :: 0 <= i < |edges| ==> SavedAs(table, graph, edges[i], entries, references[i])
  {
    references, entries := [], map[];
    for i := 0 to |edges|
      invariant |references| == i && Names(table, entries) && Grounded(graph, entries)
      invariant forall j :: 0 <= j < i ==> SavedAs(table, graph, edges[j], entries, references[j])
    {
      var reference := Direct(edges[i].source, edges[i].sourcePath);
      if !Collapses(graph, edges[i]) {
        entries, reference := SaveChain(table, graph, entries, edges[i].chain);
      }
      references := references + [reference];
    }
  }

  // ----- loading -----

  /** `chain` is what `symbol` stands for, followed down to the named node. */
  ghost predicate Rebuilds(entries: Entries, symbol: Symbol, chain: seq<Recipe>)
    decreases |chain|
  {
    && chain != [] && symbol in entries && entries[symbol] == chain[|chain| - 1]
    && match entries[symbol].source
       case Node(_) => |chain| == 1
       case Anonymous(source) => Rebuilds(entries, source, chain[..|chain| - 1])
  }

  lemma {:induction false} RebuildsOnce(entries: Entries, symbol: Symbol, a: seq<Recipe>, b: seq<Recipe>)
    requires Rebuilds(entries, symbol, a) && Rebuilds(entries, symbol, b)
    ensures a == b
    decreases |a|
  {
    if entries[symbol].source.Anonymous? {
      RebuildsOnce(entries, entries[symbol].source.symbol, a[..|a| - 1], b[..|b| - 1]);
    }
    assert a == a[..|a| - 1] + [a[|a| - 1]] && b == b[..|b| - 1] + [b[|b| - 1]];
  }

  /** Every chain an edge records is what its saved symbol rebuilds. */
  lemma {:induction false} SavedChainRebuilds(table: Table, entries: Entries, chain: seq<Recipe>)
    requires Linked(table, chain) && Covers(table, entries, chain) && chain != []
    ensures Rebuilds(entries, table[chain[|chain| - 1]], chain)
    decreases |chain|
  {
    if |chain| > 1 {
      var init := chain[..|chain| - 1];
      assert forall i :: 0 <= i < |init| ==> init[i] == chain[i];
      SavedChainRebuilds(table, entries, init);
    }
  }

  /** Following `source` once from each symbol of `stack` gives the next one. */
  ghost predicate Descends(entries: Entries, stack: seq<Symbol>) {
    forall i :: 0 <= i < |stack| - 1 ==>
      stack[i] in entries && entries[stack[i]].source == Anonymous(stack[i + 1])
  }

  lemma {:induction false} DescentShortens(entries: Entries, stack: seq<Symbol>, chain: seq<Recipe>, k: nat)
    requires Descends(entries, stack) && k < |stack| && Rebuilds(entries, stack[0], chain)
    ensures k < |chain| && Rebuilds(entries, stack[k], chain[..|chain| - k])
  {
    if k == 0 {
      assert chain[..|chain|] == chain;
    } else {
      DescentShortens(entries, stack, chain, k - 1);
      var c := chain[..|chain| - (k - 1)];
      assert entries[stack[k - 1]].source == Anonymous(stack[k - 1 + 1]);
      assert c[..|c| - 1] == chain[..|chain| - k];
    }
  }

  /** A symbol reached again on the way down stands for no chain at all. */
  lemma CycleRebuildsNothing(entries: Entries, stack: seq<Symbol>, chain: seq<Recipe>, k: nat)
    requires Descends(entries, stack) && k < |stack| - 1 && stack[k] == stack[|stack| - 1]
    ensures !Rebuilds(entries, stack[k], chain)
  {
    if Rebuilds(entries, stack[k], chain) {
      var tail := stack[k..];
      assert Descends(entries, tail) by {
        forall i | 0 <= i < |tail| - 1 ensures tail[i] in entries && entries[tail[i]].source == Anonymous(tail[i + 1]) {
          assert tail[i] == stack[k + i];
        }
      }
      DescentShortens(entries, tail, chain, |tail| - 1);
      RebuildsOnce(entries, stack[k], chain, chain[..|chain| - (|tail| - 1)]);
    }
  }

  datatype LoadError = Cycle | Unknown

  /** The loader's memo of resolved symbols. */
  class Loader {
    const entries: Entries
    var resolved: map<Symbol, seq<Recipe>>

    ghost predicate Valid() reads this {
      forall s :: s in resolved ==> Rebuilds(entries, s, resolved[s])
    }

    constructor (entries: Entries)
      ensures Valid() && this.entries == entries && resolved == map[]
    {
      this.entries := entries;
      resolved := map[];
    }

    /** Rebuilds the chain behind a symbol, or fails exactly when there is none: `stack` holds
        the symbols being resolved, outermost first, and this one last. */
    method Resolve(symbol: Symbol, resolving: set<Symbol>, ghost stack: seq<Symbol>)
        returns (r: Result<seq<Recipe>, LoadError>)
      requires Valid() && Descends(entries, stack) && stack != [] && stack[|stack| - 1] == symbol
      requires resolving == (set i | 0 <= i < |stack| - 1 :: stack[i])
      requires resolving <= entries.Keys
      modifies this
      ensures Valid()
      ensures r.Ok? ==> Rebuilds(entries, symbol, r.value)
      ensures r.Err? ==> forall chain :: !Rebuilds(entries, symbol, chain)
      decreases entries.Keys - resolving
    {
      if symbol in resolved {
        return Ok(resolved[symbol]);
      }
      if symbol in resolving {
        ghost var k :| 0 <= k < |stack| - 1 && stack[k] == symbol;
        forall chain ensures !Rebuilds(entries, symbol, chain) {
          CycleRebuildsNothing(entries, stack, chain, k);
        }
        return Err(Cycle);
      }
      if symbol !in entries {
        return Err(Unknown);
      }
      var recipe := entries[symbol];
      match recipe.source {
        case Node(_) =>
          r := Ok([recipe]);
        case Anonymous(source) =>
          ghost var deeper := stack + [source];
          assert forall i :: 0 <= i < |stack| ==> deeper[i] == stack[i];
          assert resolving + {symbol} == (set i | 0 <= i < |deeper| - 1 :: deeper[i]);
          var below := Resolve(source, resolving + {symbol}, deeper);
          if below.Err? {
            return below;
          }
          assert (below.value + [recipe])[..|below.value|] == below.value;
          r := Ok(below.value + [recipe]);
      }
      resolved := resolved[symbol := r.value];
    }
  }

  /** The symbol table has every entry's recipe under one of its symbols, and nothing else. */
  ghost predicate Entered(entries: Entries, symbols: Table) {
    && (forall r :: r in symbols ==> symbols[r] in entries && entries[symbols[r]] == r)
    && (forall s :: s in entries ==> entries[s] in symbols)
  }

  /** Every saved recipe has its saved symbol. */
  ghost predicate Keeps(entries: Entries, symbols: Table) {
    forall s :: s in entries ==> entries[s] in symbols && symbols[entries[s]] == s
  }

  /** The saved symbols are entered before anything is loaded; of two symbols of one recipe the
      later wins. */
  method EnterSymbols(entries: Entries) returns (symbols: Table)
    ensures Entered(entries, symbols) && Injective(symbols)
  {
    symbols := map[];
    var rest := entries.Keys;
    while rest != {}
      invariant rest <= entries.Keys
      invariant forall r :: r in symbols ==> symbols[r] in entries && entries[symbols[r]] == r
      invariant forall s :: s in entries && s !in rest ==> entries[s] in symbols
      decreases rest
    {
      var s :| s in rest;
      symbols := symbols[entries[s] := s];
      rest := rest - {s};
    }
  }

  /** What a graph's own save names is entered as it was saved. */
  lemma EnteredKeeps(table: Table, entries: Entries, symbols: Table)
    requires Names(table, entries) && Entered(entries, symbols)
    ensures Keeps(entries, symbols)
  {
    forall s | s in entries ensures entries[s] in symbols && symbols[entries[s]] == s {
      assert entries[symbols[entries[s]]] == entries[s];
    }
  }

  lemma {:induction false} RebuiltIsLinked(entries: Entries, symbols: Table, symbol: Symbol, chain: seq<Recipe>)
    requires Keeps(entries, symbols) && Rebuilds(entries, symbol, chain)
    ensures Linked(symbols, chain)
    decreases |chain|
  {
    if |chain| > 1 {
      var init := chain[..|chain| - 1];
      RebuiltIsLinked(entries, symbols, entries[symbol].source.symbol, init);
      assert forall i :: 0 <= i < |init| ==> chain[i] == init[i];
    }
  }

  lemma ReloadedIsStored(entries: Entries, symbols: Table, symbol: Symbol, graph: Graph, chain: seq<Recipe>,
      target: NodePath, targetPath: Path)
    requires Keeps(entries, symbols) && Rebuilds(entries, symbol, chain) && StartsIn(graph, chain)
    ensures Stored(symbols, Reloaded(graph, chain, target, targetPath))
  {
    RebuiltIsLinked(entries, symbols, symbol, chain);
    var root := NodeCelltype(graph, chain[0].source.path);
    if |chain| == 1 && chain[0].path != [] {
      assert chain[..0] == [] && ChainSteps(root, chain[..0]) == [];
      assert ChainSteps(root, chain) == [];
    }
  }

  /** Loading a reference: a direct one is registered afresh at the graph's own celltypes, a
      symbol gives back its recorded chain. */
  method LoadEdge(symbols: SymbolTable, loader: Loader, graph: Graph, reference: Reference, target: NodePath,
      targetPath: Path)
    returns (r: Result<Edge, LoadError>)
    requires symbols.Valid() && loader.Valid() && Keeps(loader.entries, symbols.symbols)
    requires reference.Direct? ==> reference.node in graph
    requires Grounded(graph, loader.entries)
    modifies symbols, loader
    ensures symbols.Valid() && Extends(old(symbols.symbols), symbols.symbols) && loader.Valid()
    ensures Keeps(loader.entries, symbols.symbols)
    ensures r.Ok? ==> r.value.target == target && r.value.targetPath == targetPath && Stored(symbols.symbols, r.value)
    ensures reference.Direct? ==>
      && r.Ok?
      && r.value == Edge(reference.node, reference.path, target, targetPath, false, [], r.value.chain)
      && LinksOf(r.value.chain) == AnonymousLinks(NodeCelltype(graph, reference.node), reference.path, [])
    ensures reference.BySymbol? && r.Ok? ==>
      && symbols.symbols == old(symbols.symbols)
      && Rebuilds(loader.entries, reference.symbol, r.value.chain)
      && StartsIn(graph, r.value.chain) && r.value == Reloaded(graph, r.value.chain, target, targetPath)
    ensures reference.BySymbol? && r.Err? ==> forall chain :: !Rebuilds(loader.entries, reference.symbol, chain)
  {
    match reference {
      case Direct(node, path) =>
        var edge := Register(symbols, graph, Edge(node, path, target, targetPath, false, [], []));
        r := Ok(edge);
      case BySymbol(symbol) =>
        var resolved := loader.Resolve(symbol, {}, [symbol]);
        if resolved.Err? {
          return Err(resolved.error);
        }
        RebuiltRoot(loader.entries, symbol, resolved.value);
        ReloadedIsStored(loader.entries, symbols.symbols, symbol, graph, resolved.value, target, targetPath);
        AssignKnown(symbols, resolved.value);
        r := Ok(Reloaded(graph, resolved.value, target, targetPath));
    }
  }

  /** A loaded chain's recipes have their symbols already. */
  method AssignKnown(symbols: SymbolTable, chain: seq<Recipe>)
    requires symbols.Valid() && Linked(symbols.symbols, chain)
    modifies symbols
    ensures symbols.Valid() && symbols.symbols == old(symbols.symbols)
  {
    for i := 0 to |chain|
      invariant symbols.Valid() && symbols.symbols == old(symbols.symbols)
    {
      assert chain[i] in symbols.symbols;
      var symbol := symbols.AssignSymbol(chain[i]);
    }
  }

  lemma {:induction false} RebuiltRoot(entries: Entries, symbol: Symbol, chain: seq<Recipe>)
    requires Rebuilds(entries, symbol, chain)
    ensures Rooted(chain) && (exists s :: s in entries && entries[s] == chain[0])
    decreases |chain|
  {
    if |chain| > 1 {
      var init := chain[..|chain| - 1];
      RebuiltRoot(entries, entries[symbol].source.symbol, init);
      assert forall i :: 0 <= i < |init| ==> chain[i] == init[i];
    }
  }

  /** The conversions a loaded chain takes: those that change the celltype of what they read. */
  function ChainSteps(root: Celltype, chain: seq<Recipe>): seq<Step> {
    if chain == [] then []
    else
      var init, last := chain[..|chain| - 1], chain[|chain| - 1];
      var before := if init == [] then root else init[|init| - 1].celltype;
      ChainSteps(root, init)
        + (if last.path == [] && last.celltype != before then [Step(|ChainPath(chain)|, last.celltype)] else [])
  }

  function Reloaded(graph: Graph, chain: seq<Recipe>, target: NodePath, targetPath: Path): Edge
    requires StartsIn(graph, chain)
  {
    var root := chain[0].source.path;
    var steps := ChainSteps(NodeCelltype(graph, root), chain);
    Edge(root, ChainPath(chain), target, targetPath, steps != [], steps, chain)
  }

  // ----- the two graphs agree -----

  /** Saving and loading gives an edge of the same endpoints whose miswiring is the same in
      every graph: at once, and after any retyping of nodes. */
  lemma ReloadAgrees(table: Table, entries: Entries, saved: Graph, edge: Edge, loaded: Edge, later: Graph)
    requires Stored(table, edge) && edge.target in saved && edge.source in saved
    requires if Collapses(saved, edge) then
               && loaded == Edge(edge.source, edge.sourcePath, edge.target, edge.targetPath, false, [], loaded.chain)
               && LinksOf(loaded.chain) == AnonymousLinks(NodeCelltype(saved, edge.source), edge.sourcePath, [])
               && (loaded.chain != [] ==> loaded.chain[0].source == Node(edge.source))
             else
               && Covers(table, entries, edge.chain)
               && Rebuilds(entries, table[edge.chain[|edge.chain| - 1]], loaded.chain)
               && StartsIn(saved, loaded.chain) && loaded == Reloaded(saved, loaded.chain, edge.target, edge.targetPath)
    requires later.Keys == saved.Keys
    ensures loaded.source == edge.source && loaded.sourcePath == edge.sourcePath
    ensures !Collapses(saved, edge) ==> loaded.chain == edge.chain
    ensures EdgeMiswiring(later, loaded) == EdgeMiswiring(later, edge)
  {
    if Collapses(saved, edge) {
      CollapsedAgrees(saved, edge, loaded, later);
    } else {
      SavedChainRebuilds(table, entries, edge.chain);
      RebuildsOnce(entries, table[edge.chain[|edge.chain| - 1]], edge.chain, loaded.chain);
      if |edge.chain| == 1 {
        if edge.chain[0].path == [] {
          PathlessNeverDefective(later, edge.chain);
        } else {
          LoneChainSteps(saved, edge);
        }
      }
    }
  }

  /** A lone conversion to its source's own celltype, into a member of a deep cell of just that
      celltype: reloaded, it is no conversion any more. */
  predicate IdentityIntoMember(graph: Graph, edge: Edge)
    requires edge.target in graph
  {
    && |edge.chain| == 1 && edge.chain[0].path == [] && edge.chain[0].source.Node? && edge.chain[0].source.path in graph
    && edge.converts && edge.chain[0].celltype == NodeCelltype(graph, edge.chain[0].source.path)
    && graph[edge.target].Cell? && IsDeep(graph[edge.target].celltype) && edge.targetPath != []
    && TargetCelltype(graph, edge) == Some(edge.chain[0].celltype)
  }

  /** The loaded edge joins the same endpoints, keeps a chain that was saved as one, and agrees
      on its miswiring in the graph it was saved from, however nodes are retyped afterwards. */
  ghost predicate CameBack(graph: Graph, edge: Edge, loaded: Edge)
    requires edge.target in graph
  {
    && loaded.source == edge.source && loaded.sourcePath == edge.sourcePath
    && loaded.target == edge.target && loaded.targetPath == edge.targetPath
    && (!Collapses(graph, edge) ==> loaded.chain == edge.chain)
    && (Collapses(graph, loaded) <==> Collapses(graph, edge) || IdentityIntoMember(graph, edge))
    && forall later: Graph :: later.Keys == graph.Keys ==> EdgeMiswiring(later, loaded) == EdgeMiswiring(later, edge)
  }

  lemma ReloadComesBack(table: Table, entries: Entries, graph: Graph, edge: Edge, reference: Reference, loaded: Edge)
    requires edge.source in graph && edge.target in graph && Stored(table, edge)
    requires SavedAs(table, graph, edge, entries, reference)
    requires loaded.target == edge.target && loaded.targetPath == edge.targetPath
    requires reference.Direct? ==>
      && loaded == Edge(reference.node, reference.path, edge.target, edge.targetPath, false, [], loaded.chain)
      && LinksOf(loaded.chain) == AnonymousLinks(NodeCelltype(graph, reference.node), reference.path, [])
      && (loaded.chain != [] ==> loaded.chain[0].source == Node(edge.source))
    requires reference.BySymbol? ==>
      && Rebuilds(entries, reference.symbol, loaded.chain)
      && StartsIn(graph, loaded.chain) && loaded == Reloaded(graph, loaded.chain, edge.target, edge.targetPath)
    ensures CameBack(graph, edge, loaded)
  {
    ReloadAgrees(table, entries, graph, edge, loaded, graph);
    if Collapses(graph, edge) {
      CollapsesAgain(graph, edge, loaded);
    } else {
      StillAChain(graph, edge, loaded);
    }
    hide EdgeMiswiring;
    forall later: Graph | later.Keys == graph.Keys
      ensures EdgeMiswiring(later, loaded) == EdgeMiswiring(later, edge)
    {
      ReloadAgrees(table, entries, graph, edge, loaded, later);
    }
  }

  lemma CollapsesAgain(graph: Graph, edge: Edge, loaded: Edge)
    requires edge.target in graph && edge.source in graph && Collapses(graph, edge)
    requires ChainPath(edge.chain) == edge.sourcePath
    requires (edge.chain != [] ==> edge.chain[0].source == Node(edge.source))
    requires loaded == Edge(edge.source, edge.sourcePath, edge.target, edge.targetPath, false, [], loaded.chain)
    requires LinksOf(loaded.chain) == AnonymousLinks(NodeCelltype(graph, edge.source), edge.sourcePath, [])
    requires loaded.chain != [] ==> loaded.chain[0].source == Node(edge.source)
    ensures Collapses(graph, loaded)
  {
    var path := edge.sourcePath;
    assert path[0..] == path;
    if edge.chain != [] {
      assert edge.chain[..0] == [] && ChainPath(edge.chain) == [] + edge.chain[0].path;
      assert path == edge.chain[0].path;
    }
    assert |loaded.chain| == |LinksOf(loaded.chain)|;
    if path != [] {
      assert loaded.chain[0].path == LinksOf(loaded.chain)[0].path;
    }
  }

  lemma StillAChain(graph: Graph, edge: Edge, loaded: Edge)
    requires edge.target in graph && !Collapses(graph, edge) && loaded.chain == edge.chain
    requires StartsIn(graph, edge.chain)
    requires loaded == Reloaded(graph, edge.chain, edge.target, edge.targetPath)
    requires |edge.chain| == 1 && edge.chain[0].path != [] ==> !edge.converts
    ensures Collapses(graph, loaded) <==> IdentityIntoMember(graph, edge)
  {
    if |edge.chain| == 1 {
      assert edge.chain[..0] == [];
      var link, root := edge.chain[0], NodeCelltype(graph, edge.chain[0].source.path);
      assert ChainSteps(root, edge.chain) == if link.path == [] && link.celltype != root then
        [Step(|ChainPath(edge.chain)|, link.celltype)] else [];
      assert loaded.converts <==> link.path == [] && link.celltype != root;
      assert TargetCelltype(graph, loaded) == TargetCelltype(graph, edge);
    }
  }

  lemma StaysStored(before: Table, after: Table, edge: Edge)
    requires Stored(before, edge) && Extends(before, after)
    ensures Stored(after, edge)
  {
    forall i | 0 <= i < |edge.chain|
      ensures edge.chain[i] in after
      ensures (i > 0 ==> edge.chain[i - 1] in after && edge.chain[i].source == Anonymous(after[edge.chain[i - 1]]))
    {
      assert edge.chain[i] in before;
    }
  }

  method LoadBack(symbols: SymbolTable, loader: Loader, graph: Graph, reference: Reference,
                  target: NodePath, targetPath: Path, ghost table: Table, ghost edge: Edge)
    returns (loaded: Edge)
    requires symbols.Valid() && loader.Valid() && Grounded(graph, loader.entries)
    requires Keeps(loader.entries, symbols.symbols)
    requires edge.source in graph && edge.target in graph && Stored(table, edge)
    requires SavedAs(table, graph, edge, loader.entries, reference)
    requires target == edge.target && targetPath == edge.targetPath
    modifies symbols, loader
    ensures symbols.Valid() && loader.Valid() && Extends(old(symbols.symbols), symbols.symbols)
    ensures Keeps(loader.entries, symbols.symbols)
    ensures CameBack(graph, edge, loaded) && Stored(symbols.symbols, loaded)
  {
    if reference.BySymbol? {
      SavedChainRebuilds(table, loader.entries, edge.chain);
    }
    var result := LoadEdge(symbols, loader, graph, reference, target, targetPath);
    loaded := result.value;
    ReloadComesBack(table, loader.entries, graph, edge, reference, loaded);
  }

  /** A whole graph's edges, saved and loaded: every edge comes back, every saved symbol stands
      for what it stood for, and the loaded edges are stored as registered ones are. */
  method SaveAndLoad(running: SymbolTable, graph: Graph, edges: seq<Edge>)
    returns (references: seq<Reference>, entries: Entries, loaded: seq<Edge>, symbols: SymbolTable)
    requires running.Valid()
    requires forall i :: 0 <= i < |edges| ==>
      edges[i].source in graph && edges[i].target in graph && Stored(running.symbols, edges[i])
    ensures fresh(symbols) && symbols.Valid() && Keeps(entries, symbols.symbols)
    ensures |references| == |loaded| == |edges|
    ensures forall i :: 0 <= i < |edges| ==>
      && SavedAs(running.symbols, graph, edges[i], entries, references[i])
      && CameBack(graph, edges[i], loaded[i]) && Stored(symbols.symbols, loaded[i])
  {
    references, entries := SaveGraph(running.symbols, graph, edges);
    ghost var table := running.symbols;
    symbols := new SymbolTable(running.base);
    symbols.symbols := EnterSymbols(entries);
    EnteredKeeps(table, entries, symbols.symbols);
    var loader := new Loader(entries);
    loaded := [];
    hide CameBack, Stored, SavedAs, Keeps, Grounded;
    for i := 0 to |edges|
      invariant |loaded| == i && symbols.Valid() && loader.Valid() && Keeps(entries, symbols.symbols)
      invariant fresh(symbols) && fresh(loader) && loader.entries == entries
      invariant forall j :: 0 <= j < i ==> CameBack(graph, edges[j], loaded[j]) && Stored(symbols.symbols, loaded[j])
    {
      ghost var before := symbols.symbols;
      var edge := LoadBack(symbols, loader, graph, references[i], edges[i].target, edges[i].targetPath, table,
        edges[i]);
      forall j | 0 <= j < i ensures Stored(symbols.symbols, loaded[j]) {
        StaysStored(before, symbols.symbols, loaded[j]);
      }
      loaded := loaded + [edge];
    }
  }

  // ----- saved again -----

  /** The loaded graph's save refers to the edge as the first one did, exactly unless the edge was
      a conversion into a deep member that changed nothing; and it keeps the entries of the chain. */
  ghost predicate SavedAgain(graph: Graph, edge: Edge, first: Reference, entries: Entries, second: Reference,
      again: Entries)
    requires edge.target in graph
  {
    && (second == first <==> !IdentityIntoMember(graph, edge))
    && (second.BySymbol? ==> forall chain :: Rebuilds(entries, second.symbol, chain) ==>
          Rebuilds(again, second.symbol, chain))
  }

  lemma SavesAgain(table: Table, later: Table, graph: Graph, edge: Edge, loaded: Edge, first: Reference,
      entries: Entries,
                   second: Reference, again: Entries)
    requires edge.target in graph && Stored(table, edge) && Stored(later, loaded) && CameBack(graph, edge, loaded)
    requires SavedAs(table, graph, edge, entries, first) && SavedAs(later, graph, loaded, again, second)
    requires Keeps(entries, later)
    ensures SavedAgain(graph, edge, first, entries, second, again)
  {
    hide EdgeMiswiring;
    if !Collapses(graph, edge) && !Collapses(graph, loaded) {
      var chain, last := edge.chain, edge.chain[|edge.chain| - 1];
      assert entries[table[last]] == last && later[last] == table[last];
      SavedChainRebuilds(table, entries, chain);
      SavedChainRebuilds(later, again, chain);
      forall other | Rebuilds(entries, second.symbol, other) ensures Rebuilds(again, second.symbol, other) {
        RebuildsOnce(entries, second.symbol, chain, other);
      }
    }
  }

  /** A graph saved, loaded and saved again. */
  method SaveLoadSave(running: SymbolTable, graph: Graph, edges: seq<Edge>)
    returns (first: seq<Reference>, entries: Entries, second: seq<Reference>, again: Entries)
    requires running.Valid()
    requires forall i :: 0 <= i < |edges| ==>
      edges[i].source in graph && edges[i].target in graph && Stored(running.symbols, edges[i])
    ensures |first| == |second| == |edges|
    ensures forall i :: 0 <= i < |edges| ==>
      SavedAs(running.symbols, graph, edges[i], entries, first[i])
        && SavedAgain(graph, edges[i], first[i], entries, second[i], again)
  {
    var loaded, symbols;
    first, entries, loaded, symbols := SaveAndLoad(running, graph, edges);
    assert forall i :: 0 <= i < |edges| ==> CameBack(graph, edges[i], loaded[i]) ==>
      loaded[i].source == edges[i].source && loaded[i].target == edges[i].target;
    hide Stored, SavedAs, Keeps, CameBack, SavedAgain;
    second, again := SaveGraph(symbols.symbols, graph, loaded);
    forall i | 0 <= i < |edges| ensures SavedAgain(graph, edges[i], first[i], entries, second[i], again) {
      SavesAgain(running.symbols, symbols.symbols, graph, edges[i], loaded[i], first[i], entries, second[i], again);
    }
  }

  lemma LoneChainSteps(saved: Graph, edge: Edge)
    requires |edge.chain| == 1 && edge.chain[0].source.Node? && edge.chain[0].source.path in saved
    requires edge.chain[0].path != []
    ensures ChainSteps(NodeCelltype(saved, edge.chain[0].source.path), edge.chain) == []
  {
    assert edge.chain[..0] == [];
  }

  lemma CollapsedAgrees(saved: Graph, edge: Edge, loaded: Edge, later: Graph)
    requires edge.target in saved && edge.source in saved && Collapses(saved, edge)
    requires ChainPath(edge.chain) == edge.sourcePath
    requires (edge.chain != [] ==> edge.chain[0].source == Node(edge.source))
    requires loaded == Edge(edge.source, edge.sourcePath, edge.target, edge.targetPath, false, [], loaded.chain)
    requires LinksOf(loaded.chain) == AnonymousLinks(NodeCelltype(saved, edge.source), edge.sourcePath, [])
    requires loaded.chain != [] ==> loaded.chain[0].source == Node(edge.source)
    requires |edge.chain| == 1 && edge.chain[0].path != [] ==> !edge.converts
    requires later.Keys == saved.Keys
    ensures EdgeMiswiring(later, loaded) == EdgeMiswiring(later, edge)
  {
    var path := edge.sourcePath;
    assert path[0..] == path;
    if edge.chain != [] {
      assert edge.chain[..0] == [] && ChainPath(edge.chain) == [] + edge.chain[0].path;
      assert path == edge.chain[0].path;
    }
    if path == [] {
      assert |loaded.chain| == |LinksOf(loaded.chain)| == 0;
      PathlessNeverDefective(later, edge.chain);
    } else {
      assert |loaded.chain| == |LinksOf(loaded.chain)| == 1;
      assert LinksOf(loaded.chain)[0] == Link(Projected(NodeCelltype(saved, edge.source), path), path);
      assert loaded.chain[0].path == path;
    }
  }

  /** A chain of at most one link without a path is never ill-formed. */
  lemma PathlessNeverDefective(graph: Graph, chain: seq<Recipe>)
    requires |chain| <= 1 && (chain != [] ==> chain[0].path == [])
    ensures !ChainDefect(graph, chain)
  {
  }
}
