/** A cell fed by a running edge and the same cell fed by the edge reloaded: when they show the same.
    The reload can leave an edge without a conversion, and a cell's rule reads whether it has one. */
module ReloadedCells {
  import opened Wrappers
  import opened Recipes
  import opened Fusion
  import opened Handles
  import opened Symbols
  import opened SaveReload
  import opened ReloadMeaning
  import opened RetypedReload
  import D = Derivation
  import G = DerivedGraphs
  import X = FusedReads
  import E = EdgeRuns

  predicate IntoCell(later: Graph, edge: Edge) {
    edge.source in later && edge.target in later && later[edge.target].Cell? && edge.targetPath == []
  }

  // ----- the edge as a cell's rule reads it -----

  /** A looked-through edge is read as the link itself, without a conversion. */
  predicate Converts(later: Graph, edge: Edge)
    requires IntoCell(later, edge)
  {
    edge.converts && !LooksThrough(later, edge)
  }

  /** Without a conversion, what a cell that is not deep reads at a path must be of its celltype. */
  function Verdict(later: Graph, edge: Edge): D.Wiring
    requires IntoCell(later, edge)
  {
    var u := later[edge.target].celltype;
    if !Converts(later, edge) && edge.sourcePath != [] && !IsDeep(u)
       && Projected(NodeCelltype(later, edge.source), edge.sourcePath) != u
    then D.Own else D.Sound
  }

  /** The link from the source `m` into the cell. */
  function Fed(g: D.Wired, preserving: set<(Celltype, Celltype)>, later: Graph, edge: Edge, m: nat, check: nat): D.Body
    requires IntoCell(later, edge)
  {
    var t := NodeCelltype(later, edge.source);
    var runs := if Converts(later, edge) then E.SourceRuns(g, preserving, t, edge.sourcePath, edge.steps) else [];
    D.Linked(later[edge.target].celltype,
      D.Edge(m, edge.sourcePath, Converts(later, edge), Verdict(later, edge), runs), check)
  }

  // ----- what the cell shows -----

  /** The value shown over a source with value `c`, or none. */
  function Shown(sem: Semantics, valid: E.Validity, c: nat, later: Graph, edge: Edge, check: nat): Option<nat>
    requires IntoCell(later, edge)
  {
    var t, u := NodeCelltype(later, edge.source), later[edge.target].celltype;
    if Converts(later, edge) then E.Worth(EvalLinks(sem, Got(c), t, AnonymousLinks(t, edge.sourcePath, edge.steps)))
    else if Verdict(later, edge).Own? then None
    else E.Worth(E.Plainly(sem, valid, c, t, edge.sourcePath, u, check))
  }

  /** A derived graph in which the running edge feeds the cell at `order[i]` from the node `m`. */
  datatype World = World(sem: Semantics, valid: E.Validity, g: D.Wired, order: seq<nat>, i: nat, facts: D.Facts,
                         states: D.States, m: nat, c: nat)

  ghost predicate Fits(w: World, later: Graph, edge: Edge, check: nat)
    requires IntoCell(later, edge)
  {
    && Lawful(w.sem) && E.Lenient(w.valid) && E.Ranged(w.sem) && E.Tells(w.facts, w.sem, w.valid)
    && E.Honest(w.g, w.sem)
    && G.Ordered(w.g, w.order) && X.Plain(w.g) && G.Solution(w.g, w.facts, w.states)
    && w.i < |w.order| && w.order[w.i] in w.g.nodes
    && w.g.nodes[w.order[w.i]] == Fed(w.g, w.sem.preserving, later, edge, w.m, check)
    && D.NodeType(w.g, w.m) == NodeCelltype(later, edge.source) && D.StateAt(w.states, w.m) == D.Complete(w.c)
  }

  function Cell(w: World): nat
    requires w.i < |w.order|
  {
    w.order[w.i]
  }

  /** The graph with the other edge in its place. */
  function Twin(w: World, later: Graph, edge: Edge, check: nat): D.Wired
    requires IntoCell(later, edge) && w.i < |w.order|
  {
    E.Relinked(w.g, Cell(w), Fed(w.g, w.sem.preserving, later, edge, w.m, check))
  }

  /** Every fact that the cell demands is there. */
  ghost predicate Quiet(w: World, later: Graph, edge: Edge, check: nat)
    requires IntoCell(later, edge) && w.i < |w.order|
  {
    E.All(w.facts, D.Demands(Twin(w, later, edge, check), w.facts, w.states, Cell(w)))
  }

  ghost function Shows(w: World, later: Graph, edge: Edge, check: nat): Option<nat>
    requires IntoCell(later, edge) && w.i < |w.order|
  {
    E.ValueOf(D.Rule(Twin(w, later, edge, check), w.facts, w.states, Cell(w)))
  }

  /** The cell's rule, once its facts are there, shows the value of its edge. */
  lemma RuleShows(w: World, later: Graph, edge: Edge, other: Edge, check: nat)
    requires IntoCell(later, edge) && IntoCell(later, other)
    requires other.source == edge.source && other.target == edge.target
    requires Fits(w, later, edge, check) && Quiet(w, later, other, check)
    ensures Shows(w, later, other, check) == Shown(w.sem, w.valid, w.c, later, other, check)
  {
    var n, body := Cell(w), Fed(w.g, w.sem.preserving, later, other, w.m, check);
    var h, t := Twin(w, later, other, check), NodeCelltype(later, other.source);
    E.SourceBefore(w.g, w.order, w.i);
    assert h.nodes[n] == body && D.NodeType(h, w.m) == t;
    hide G.Ordered, G.Solution, X.Plain, E.SourceRuns, AnonymousLinks, EvalLinks, D.Rule, D.Demands, E.Tells, E.Plainly;
    if Converts(later, other) {
      E.SourceBuilt(w.g, w.sem.preserving, t, other.sourcePath, other.steps);
      E.ConvertingShows(h, w.facts, w.states, w.sem, w.valid, n, w.c);
      E.SourceRan(w.g, w.sem, w.valid, Got(w.c), t, other.sourcePath, other.steps);
    } else if Verdict(later, other).Own? {
      AwryShowsNothing(h, w.facts, w.states, n);
    } else if other.sourcePath == [] {
      E.PathlessShows(h, w.facts, w.states, w.sem, w.valid, n, w.c);
    } else {
      E.ReadingShows(w.g, w.order, w.i, body, w.facts, w.states, w.sem, w.valid, w.c);
    }
  }

  lemma AwryShowsNothing(g: D.Wired, facts: D.Facts, states: D.States, n: nat)
    requires n in g.nodes && g.nodes[n].Linked? && g.nodes[n].edge.wiring.Own?
    ensures E.ValueOf(D.Rule(g, facts, states, n)) == None
  {
  }

  /** The running edge's own graph is the graph: its cell has the state that it shows. */
  lemma RunningShows(w: World, later: Graph, edge: Edge, check: nat)
    requires IntoCell(later, edge) && Fits(w, later, edge, check)
    ensures Shows(w, later, edge, check) == E.ValueOf(D.StateAt(w.states, Cell(w)))
  {
    assert w.g.nodes[Cell(w) := w.g.nodes[Cell(w)]] == w.g.nodes;
    assert Twin(w, later, edge, check) == w.g;
    hide G.Ordered, X.Plain, Fed, D.Rule;
  }

  // ----- when the two edges evaluate alike -----

  /** The celltype over which the whole path is projected when all conversions were dropped. */
  function Base(root: Celltype, t: Celltype, chain: seq<Recipe>): Celltype
    requires chain != []
  {
    if chain[0].path != [] then t else root
  }

  lemma {:induction false} ThinCelltype(t: Celltype, links: seq<HandleLink>)
    ensures HandleCelltype(t, Thin(t, links)) == HandleCelltype(t, links)
    decreases |links|
  {
    if links != [] {
      var first, rest := links[0], links[1..];
      if first.Take? {
        HandleHead(first, Thin(Member(t, first.component), rest));
        ThinCelltype(Member(t, first.component), rest);
      } else if first.celltype != t {
        HandleHead(first, Thin(first.celltype, rest));
        ThinCelltype(first.celltype, rest);
      } else {
        assert [] + Thin(t, rest) == Thin(t, rest);
        ThinCelltype(t, rest);
      }
    }
  }

  lemma TakesMean(sem: Semantics, c: Outcome, t: Celltype, path: Path)
    requires Lawful(sem)
    ensures EvalHandle(sem, c, t, Takes(path)) == Project(sem, c, t, path)
    ensures HandleCelltype(t, Takes(path)) == Projected(t, path)
  {
    assert Takes(path) + [] == Takes(path);
    EvalTakes(sem, c, t, path, []);
  }

  /** The recorded chain is well-typed over its base. */
  lemma BaseIsTyped(origin: Celltype, root: Celltype, later: Graph, edge: Edge)
    requires Registered(origin, edge) && StartsIn(later, edge.chain) && SaveReload.Rooted(edge.chain)
    requires !ChainDefect(later, edge.chain)
    ensures WellTyped(Base(root, NodeCelltype(later, edge.chain[0].source.path), edge.chain), LinksOf(edge.chain))
  {
    if edge.chain[0].path == [] {
      AnonymousLinksWellTyped(origin, edge.sourcePath, edge.steps);
      WellTypedFromConversion(origin, root, LinksOf(edge.chain));
    } else {
      SoundIsWellTyped(later, edge.chain);
    }
  }

  lemma AllDropped(origin: Celltype, root: Celltype, later: Graph, edge: Edge)
    requires Registered(origin, edge) && StartsIn(later, edge.chain) && SaveReload.Rooted(edge.chain)
    requires !ChainDefect(later, edge.chain) && ChainSteps(root, edge.chain) == []
    ensures var base := Base(root, NodeCelltype(later, edge.chain[0].source.path), edge.chain);
            && Thin(base, HandleOf(LinksOf(edge.chain))) == Takes(edge.sourcePath)
            && edge.chain[|edge.chain| - 1].celltype == Projected(base, edge.sourcePath)
  {
    var base := Base(root, NodeCelltype(later, edge.chain[0].source.path), edge.chain);
    var handle := HandleOf(LinksOf(edge.chain));
    BaseIsTyped(origin, root, later, edge);
    RebuiltIsThin(root, base, edge.chain);
    assert edge.sourcePath[0..] == edge.sourcePath;
    ThinCelltype(base, handle);
    TakesMean(COUNTING, Got(0), base, edge.sourcePath) by { CountingIsLawful(); }
    hide Thin, HandleOf, HandleCelltype, Projected, WellTyped;
  }

  /** With all conversions dropped, the running edge projects the path over the base, having
      converted to it if the source was retyped. */
  lemma RunningProjects(sem: Semantics, c: Outcome, origin: Celltype, graph: Graph, later: Graph, edge: Edge)
    requires Lawful(sem) && Registered(origin, edge) && StartsIn(graph, edge.chain) && SaveReload.Rooted(edge.chain)
    requires Usable(graph, later, edge.chain)
    requires ChainSteps(NodeCelltype(graph, edge.chain[0].source.path), edge.chain) == []
    ensures var path := edge.chain[0].source.path;
            var root, t := NodeCelltype(graph, path), NodeCelltype(later, path);
            var base := Base(root, t, edge.chain);
            EvalLinks(sem, c, t, AnonymousLinks(t, edge.sourcePath, edge.steps)) ==
            Project(sem, Convert(sem, c, t, base), base, edge.sourcePath)
  {
    var path := edge.chain[0].source.path;
    var root, t := NodeCelltype(graph, path), NodeCelltype(later, path);
    var base, handle := Base(root, t, edge.chain), HandleOf(LinksOf(edge.chain));
    AllDropped(origin, root, later, edge);
    EvaluatedByHandle(sem, c, origin, t, graph, edge, edge.target, edge.targetPath);
    RecipeFusionPreservesMeaning(sem, c, t, edge.sourcePath, edge.steps);
    Unchanged(sem, c, base, base);
    var links := LinksOf(edge.chain);
    assert links[0] == Link(edge.chain[0].celltype, edge.chain[0].path);
    FirstOfHandle(links);
    hide EvalLinks, AnonymousLinks, Evaluated, EvalRuns, Thin, HandleOf, Registered, LinksOf;
    if base == t {
      ThinMeans(sem, c, t, handle);
      TakesMean(sem, c, t, edge.sourcePath);
    } else {
      TurnsFirst(sem, c, t, root, handle, edge.sourcePath);
    }
  }

  lemma FirstOfHandle(links: seq<Link>)
    requires links != []
    ensures links[0].path == [] ==> HandleOf(links) != [] && HandleOf(links)[0] == Turn(links[0].celltype)
  {
  }

  /** Only a turn to the base itself comes first where thinning leaves no turn. */
  lemma TurnsFirst(sem: Semantics, c: Outcome, t: Celltype, root: Celltype, handle: seq<HandleLink>, path: Path)
    requires Lawful(sem) && t != root && Thin(root, handle) == Takes(path) && handle != [] && handle[0].Turn?
    ensures handle[0].celltype == root
    ensures EvalHandle(sem, c, t, handle) == Project(sem, Convert(sem, c, t, root), root, path)
  {
    var rest := handle[1..];
    TakesHaveNoTurn(path);
    FirstTurnStays(root, handle);
    assert [] + Thin(root, rest) == Thin(root, rest);
    var d := Convert(sem, c, t, root);
    assert EvalHandle(sem, c, t, handle) == EvalHandle(sem, EvalExpression(sem, c, t, [], root), root, rest);
    assert EvalExpression(sem, c, t, [], root) == d;
    hide EvalExpression, EvalHandle, Thin;
    ThinMeans(sem, d, root, rest);
    TakesMean(sem, d, root, path);
  }

  lemma FirstTurnStays(t: Celltype, handle: seq<HandleLink>)
    requires handle != [] && handle[0].Turn?
    ensures handle[0].celltype != t ==> Thin(t, handle) != [] && Thin(t, handle)[0] == handle[0]
  {
  }

  lemma TakesHaveNoTurn(path: Path)
    ensures Takes(path) != [] ==> Takes(path)[0].Take?
  {
  }

  // ----- when the cell shows the same -----

  /** The edge was registered from its source, it feeds a whole cell, and no recorded link is
      ill-formed in the graph as it has become. */
  ghost predicate Stands(origin: Celltype, graph: Graph, later: Graph, edge: Edge) {
    && Registered(origin, edge) && StartsIn(graph, edge.chain) && SaveReload.Rooted(edge.chain)
    && edge.chain[0].source == Node(edge.source) && (edge.converts <==> edge.steps != [])
    && IntoCell(later, edge) && Usable(graph, later, edge.chain)
  }

  function Loaded(graph: Graph, edge: Edge): Edge
    requires StartsIn(graph, edge.chain)
  {
    Reloaded(graph, edge.chain, edge.target, edge.targetPath)
  }

  /** The edge is looked through, or it has no conversion; or the reload kept one, and not only
      those after a first that a retyping makes change something; or it kept none, but what the
      edge yields is of the cell's celltype, by a recipe that the retyping leaves alone, and no
      validator runs that did not before. */
  predicate Unharmed(graph: Graph, later: Graph, edge: Edge, check: nat)
    requires StartsIn(graph, edge.chain) && IntoCell(later, edge) && edge.source in graph
  {
    var root, t, u := NodeCelltype(graph, edge.source), NodeCelltype(later, edge.source), later[edge.target].celltype;
    var first, last := edge.chain[0], edge.chain[|edge.chain| - 1];
    || LooksThrough(later, edge) || edge.steps == []
    || (if Loaded(graph, edge).steps != [] then first.path != [] || first.celltype != root || t == root
        else
          && last.celltype == u && (first.path != [] || edge.sourcePath == [] || t == root)
          && (check == 0 || (edge.sourcePath == [] && t == u)))
  }

  lemma LookedThroughAlike(origin: Celltype, graph: Graph, later: Graph, edge: Edge)
    requires Stands(origin, graph, later, edge)
    ensures var loaded := Loaded(graph, edge);
            && IntoCell(later, loaded) && loaded.source == edge.source && loaded.sourcePath == edge.sourcePath
            && loaded.chain == edge.chain && (loaded.converts <==> loaded.steps != [])
            && LooksThrough(later, loaded) == LooksThrough(later, edge)
            && (LooksThrough(later, edge) && edge.sourcePath != [] ==> !edge.converts && !loaded.converts)
  {
    var chain, root := edge.chain, NodeCelltype(graph, edge.source);
    AnonymousLinksContent(origin, edge.sourcePath, edge.steps);
    if |chain| == 1 {
      assert LinksOf(chain) == [Link(chain[0].celltype, chain[0].path)];
      OneLinkContent(Link(chain[0].celltype, chain[0].path));
      assert chain[..0] == [];
      assert ChainPath(chain) == chain[0].path;
      assert ChainSteps(root, chain[..0]) == [];
      assert |Conversions(LinksOf(chain))| == |SortSteps(edge.steps)|;
    }
    hide AnonymousLinks, ChainDefect;
  }

  lemma SameFed(later: Graph, a: Edge, b: Edge)
    requires IntoCell(later, a) && IntoCell(later, b) && a.source == b.source && a.target == b.target
    requires a.sourcePath == b.sourcePath && !Converts(later, a) && !Converts(later, b)
    ensures forall sem, valid, c, check ::
      Shown(sem, valid, c, later, a, check) == Shown(sem, valid, c, later, b, check)
  {
  }

  lemma KeptShowsSame(sem: Semantics, valid: E.Validity, c: nat, origin: Celltype, graph: Graph, later: Graph,
      edge: Edge, check: nat)
    requires Stands(origin, graph, later, edge) && Lawful(sem) && Unharmed(graph, later, edge, check)
    requires !LooksThrough(later, edge) && edge.steps != [] && Loaded(graph, edge).steps != []
    ensures Shown(sem, valid, c, later, edge, check) == Shown(sem, valid, c, later, Loaded(graph, edge), check)
  {
    var loaded := Loaded(graph, edge);
    var root, t := NodeCelltype(graph, edge.source), NodeCelltype(later, edge.source);
    LookedThroughAlike(origin, graph, later, edge);
    RecipeFusionPreservesMeaning(sem, Got(c), t, edge.sourcePath, edge.steps);
    RecipeFusionPreservesMeaning(sem, Got(c), t, edge.sourcePath, loaded.steps);
    assert Alike(sem, Got(c), t, edge, loaded) by { KeptAlike(sem, Got(c), origin, graph, later, edge); }
    hide EvalLinks, AnonymousLinks, EvalRuns, Runs, LooksThrough, Reloaded;
  }

  lemma KeptAlike(sem: Semantics, c: Outcome, origin: Celltype, graph: Graph, later: Graph, edge: Edge)
    requires Stands(origin, graph, later, edge) && Lawful(sem)
    requires var first := edge.chain[0];
             || first.path != [] || first.celltype != NodeCelltype(graph, edge.source)
             || NodeCelltype(later, edge.source) == NodeCelltype(graph, edge.source)
    ensures Alike(sem, c, NodeCelltype(later, edge.source), edge, Loaded(graph, edge))
  {
    var root, t, first := NodeCelltype(graph, edge.source), NodeCelltype(later, edge.source), edge.chain[0];
    hide Evaluated, Reloaded, ChainDefect, Registered, Alike, LooksThrough;
    if first.path != [] {
      BeginsWithPath(sem, c, origin, graph, later, edge, edge.target, edge.targetPath);
    } else if first.celltype != root {
      FirstLinkConverts(root, edge.chain);
      ReloadMeansTheSameIff(origin, graph, edge, edge.target, edge.targetPath);
    } else {
      EvaluatedByHandle(sem, c, origin, t, graph, edge, edge.target, edge.targetPath);
      ThinMeans(sem, c, t, HandleOf(LinksOf(edge.chain)));
      assert Thinning(origin, root, edge.chain) == t;
      hide Thin, HandleOf, EvalHandle;
      assert Alike(sem, c, t, edge, Loaded(graph, edge)) by { AlikeIs(sem, c, t, edge, Loaded(graph, edge)); }
    }
  }

  lemma AlikeIs(sem: Semantics, c: Outcome, t: Celltype, edge: Edge, loaded: Edge)
    requires Evaluated(sem, c, t, edge) == Evaluated(sem, c, t, loaded)
    ensures Alike(sem, c, t, edge, loaded)
  {
    hide Evaluated;
  }

  /** What the two show when every conversion was dropped. */
  lemma DroppedShown(sem: Semantics, valid: E.Validity, c: nat, origin: Celltype, graph: Graph, later: Graph,
      edge: Edge, check: nat)
    requires Stands(origin, graph, later, edge) && Lawful(sem)
    requires !LooksThrough(later, edge) && edge.steps != [] && Loaded(graph, edge).steps == []
    ensures var root, t, u := NodeCelltype(graph, edge.source), NodeCelltype(later, edge.source),
      later[edge.target].celltype;
            var path, base := edge.sourcePath, Base(root, t, edge.chain);
            && edge.chain[|edge.chain| - 1].celltype == Projected(base, path)
            && Shown(sem, valid, c, later, edge, check) ==
               E.Worth(Project(sem, Convert(sem, Got(c), t, base), base, path))
            && Shown(sem, valid, c, later, Loaded(graph, edge), check) ==
               (if path != [] && !IsDeep(u) && Projected(t, path) != u then None
                else E.Worth(E.Plainly(sem, valid, c, t, path, u, check)))
  {
    LookedThroughAlike(origin, graph, later, edge);
    AllDropped(origin, NodeCelltype(graph, edge.source), later, edge);
    RunningProjects(sem, Got(c), origin, graph, later, edge);
    hide EvalLinks, AnonymousLinks, LooksThrough, Project, E.Plainly;
  }

  lemma DroppedShowsSame(sem: Semantics, valid: E.Validity, c: nat, origin: Celltype, graph: Graph, later: Graph,
      edge: Edge, check: nat)
    requires Stands(origin, graph, later, edge) && Lawful(sem) && E.Lenient(valid)
    requires Unharmed(graph, later, edge, check)
    requires !LooksThrough(later, edge) && edge.steps != [] && Loaded(graph, edge).steps == []
    ensures Shown(sem, valid, c, later, edge, check) == Shown(sem, valid, c, later, Loaded(graph, edge), check)
  {
    DroppedShown(sem, valid, c, origin, graph, later, edge, check);
    var t, u := NodeCelltype(later, edge.source), later[edge.target].celltype;
    var path, base := edge.sourcePath, Base(NodeCelltype(graph, edge.source), t, edge.chain);
    assert Projected(base, path) == u && (path == [] || base == t) && (check == 0 || (path == [] && t == u));
    hide *;
    PlainlyAlike(sem, valid, c, t, u, base, path, check);
  }

  lemma PlainlyAlike(sem: Semantics, valid: E.Validity, c: nat, t: Celltype, u: Celltype, base: Celltype, path: Path,
      check: nat)
    requires Lawful(sem) && E.Lenient(valid) && Projected(base, path) == u && (path == [] || base == t)
    requires check == 0 || (path == [] && t == u)
    ensures E.Worth(Project(sem, Convert(sem, Got(c), t, base), base, path)) ==
            if path != [] && !IsDeep(u) && Projected(t, path) != u then None
            else E.Worth(E.Plainly(sem, valid, c, t, path, u, check))
  {
    Unchanged(sem, Got(c), t, t);
    Unchanged(sem, Project(sem, Got(c), t, path), u, u);
    assert check == 0 ==> forall o: Outcome :: E.Worth(E.Checked(valid, check, o)) == E.Worth(o);
    if path == [] {
      assert Projected(base, path) == base;
    }
  }

  /** Where the edge is unharmed the two show the same, whatever the values. */
  lemma UnharmedShowsSame(sem: Semantics, valid: E.Validity, c: nat, origin: Celltype, graph: Graph, later: Graph,
      edge: Edge, check: nat)
    requires Stands(origin, graph, later, edge) && Lawful(sem) && E.Lenient(valid)
    requires Unharmed(graph, later, edge, check)
    ensures IntoCell(later, Loaded(graph, edge))
    ensures Shown(sem, valid, c, later, edge, check) == Shown(sem, valid, c, later, Loaded(graph, edge), check)
  {
    LookedThroughAlike(origin, graph, later, edge);
    hide Shown, Unharmed, Reloaded, ChainDefect;
    if LooksThrough(later, edge) {
      SameFed(later, edge, Loaded(graph, edge));
    } else if edge.steps == [] {
      NothingToDrop(origin, graph, edge);
      SameFed(later, edge, Loaded(graph, edge));
    } else if Loaded(graph, edge).steps != [] {
      KeptShowsSame(sem, valid, c, origin, graph, later, edge, check);
    } else {
      DroppedShowsSame(sem, valid, c, origin, graph, later, edge, check);
    }
  }

  lemma NothingToDrop(origin: Celltype, graph: Graph, edge: Edge)
    requires Registered(origin, edge) && StartsIn(graph, edge.chain) && edge.steps == []
    ensures Loaded(graph, edge).steps == []
  {
    AnonymousLinksContent(origin, edge.sourcePath, edge.steps);
    ConversionsKept(NodeCelltype(graph, edge.chain[0].source.path), edge.chain);
    hide AnonymousLinks;
  }

  // ----- values that tell them apart -----

  function GatedItem(c: Checksum, t: Celltype, component: Component): Outcome { if c == 0 then Failed else Got(c) }

  /** Only a value that was converted has parts. */
  const GATED := Semantics(GatedItem, CountedTurn, {})

  function FlaggedTurn(flag: Celltype, c: Checksum, t: Celltype, u: Celltype): Outcome {
    if t == u then Got(c) else if u == flag then Got(c + 1) else Got(c + 2)
  }

  /** A conversion to one celltype is unlike those to others. */
  function Flagged(flag: Celltype): Semantics {
    Semantics(CountedItem, (c: Checksum, t: Celltype, u: Celltype) => FlaggedTurn(flag, c, t, u), {})
  }

  function Any(check: nat, c: nat): bool { true }

  function NoneChecked(check: nat, c: nat): bool { check == 0 }

  lemma AllLawful(flag: Celltype)
    ensures Lawful(COUNTING) && Lawful(GATED) && Lawful(Flagged(flag))
    ensures E.Ranged(COUNTING) && E.Ranged(GATED) && E.Ranged(Flagged(flag))
    ensures E.Lenient(Any) && E.Lenient(NoneChecked)
  {
  }

  lemma {:induction false} ProjectedAsIs(sem: Semantics, c: Checksum, t: Celltype, path: Path)
    requires forall u, component :: sem.item(c, u, component) == Got(c)
    ensures Project(sem, Got(c), t, path) == Got(c)
    decreases |path|
  {
    if path != [] {
      ProjectedAsIs(sem, c, Member(t, path[0]), path[1..]);
    }
  }

  lemma KeptHarms(origin: Celltype, graph: Graph, later: Graph, edge: Edge, check: nat)
    requires Stands(origin, graph, later, edge) && !LooksThrough(later, edge) && edge.steps != []
    requires Loaded(graph, edge).steps != [] && !Unharmed(graph, later, edge, check)
    ensures IntoCell(later, Loaded(graph, edge))
    ensures Shown(COUNTING, Any, 0, later, edge, check) != Shown(COUNTING, Any, 0, later, Loaded(graph, edge), check)
  {
    var loaded, root, t := Loaded(graph, edge), NodeCelltype(graph, edge.source), NodeCelltype(later, edge.source);
    var handle := HandleOf(LinksOf(edge.chain));
    assert edge.chain[0].path == [] && edge.chain[0].celltype == root && t != root;
    LookedThroughAlike(origin, graph, later, edge);
    assert Thinning(origin, root, edge.chain) == root;
    KeptCounts(origin, graph, later, edge);
    hide *;
    ConvertingCounts(later, edge, check);
    ConvertingCounts(later, loaded, check);
    FirstIsTurn(edge.chain);
    FirstTurnCounts(t, root, handle);
  }

  lemma KeptCounts(origin: Celltype, graph: Graph, later: Graph, edge: Edge)
    requires Stands(origin, graph, later, edge)
    ensures var root, t := NodeCelltype(graph, edge.source), NodeCelltype(later, edge.source);
            var handle := HandleOf(LinksOf(edge.chain));
            && Evaluated(COUNTING, Got(0), t, edge) == Got(Changes(t, handle))
            && Evaluated(COUNTING, Got(0), t, Loaded(graph, edge)) ==
               Got(Changes(t, Thin(Thinning(origin, root, edge.chain), handle)))
  {
    var root, t := NodeCelltype(graph, edge.source), NodeCelltype(later, edge.source);
    var handle := HandleOf(LinksOf(edge.chain));
    CountingIsLawful();
    EvaluatedByHandle(COUNTING, Got(0), origin, t, graph, edge, edge.target, edge.targetPath);
    hide *;
    CountingCounts(0, t, handle);
    CountingCounts(0, t, Thin(Thinning(origin, root, edge.chain), handle));
  }

  /** A converting edge shows what its runs evaluate to. */
  lemma ConvertingCounts(later: Graph, edge: Edge, check: nat)
    requires IntoCell(later, edge) && Converts(later, edge)
    ensures Shown(COUNTING, Any, 0, later, edge, check) ==
            E.Worth(Evaluated(COUNTING, Got(0), NodeCelltype(later, edge.source), edge))
  {
    CountingIsLawful();
    RecipeFusionPreservesMeaning(COUNTING, Got(0), NodeCelltype(later, edge.source), edge.sourcePath, edge.steps);
    hide EvalLinks, AnonymousLinks, EvalRuns, Runs, LooksThrough;
  }

  lemma FirstIsTurn(chain: seq<Recipe>)
    requires chain != [] && chain[0].path == []
    ensures HandleOf(LinksOf(chain)) != [] && HandleOf(LinksOf(chain))[0] == Turn(chain[0].celltype)
  {
    assert LinksOf(chain)[0] == Link(chain[0].celltype, chain[0].path);
    FirstOfHandle(LinksOf(chain));
  }

  lemma FirstTurnCounts(t: Celltype, root: Celltype, handle: seq<HandleLink>)
    requires handle != [] && handle[0] == Turn(root) && t != root
    ensures Changes(t, Thin(root, handle)) < Changes(t, handle)
  {
    var rest := handle[1..];
    assert [] + Thin(root, rest) == Thin(root, rest);
    ThinChangesLess(root, t, rest);
  }

  lemma DroppedHarms(origin: Celltype, graph: Graph, later: Graph, edge: Edge, check: nat)
    returns (sem: Semantics, valid: E.Validity)
    requires Stands(origin, graph, later, edge) && !LooksThrough(later, edge) && edge.steps != []
    requires Loaded(graph, edge).steps == [] && !Unharmed(graph, later, edge, check)
    ensures Lawful(sem) && E.Ranged(sem) && E.Lenient(valid) && IntoCell(later, Loaded(graph, edge))
    ensures Shown(sem, valid, 0, later, edge, check) != Shown(sem, valid, 0, later, Loaded(graph, edge), check)
  {
    var root, t, u := NodeCelltype(graph, edge.source), NodeCelltype(later, edge.source), later[edge.target].celltype;
    var path, base := edge.sourcePath, Base(root, t, edge.chain);
    LookedThroughAlike(origin, graph, later, edge);
    if path == [] {
      PathlessChain(edge.chain);
    }
    AllLawful(root);
    assert path == [] ==> base == root && Projected(base, path) == base;
    if path == [] && base != u {
      sem, valid := Flagged(root), Any;
      PathlessTells(root, t, u, check);
    } else if path != [] && base != t {
      sem, valid := GATED, Any;
      GatedTells(t, u, base, path, check);
    } else if Projected(base, path) != u {
      sem, valid := COUNTING, Any;
      CountingTells(t, u, path, check);
    } else {
      sem, valid := COUNTING, NoneChecked;
      assert edge.chain[|edge.chain| - 1].celltype == u by {
        DroppedShown(sem, valid, 0, origin, graph, later, edge, check);
      }
      CheckTells(t, u, base, path, check);
    }
    hide Shown, LooksThrough, Reloaded, ChainDefect, Unharmed;
    DroppedShown(sem, valid, 0, origin, graph, later, edge, check);
  }

  /** The two sides of `DroppedShown` differ over the value 0. */
  ghost predicate Tells(sem: Semantics, valid: E.Validity, t: Celltype, u: Celltype, base: Celltype, path: Path,
      check: nat) {
    E.Worth(Project(sem, Convert(sem, Got(0), t, base), base, path)) !=
    if path != [] && !IsDeep(u) && Projected(t, path) != u then None
    else E.Worth(E.Plainly(sem, valid, 0, t, path, u, check))
  }

  lemma PathlessTells(root: Celltype, t: Celltype, u: Celltype, check: nat)
    requires root != u
    ensures Tells(Flagged(root), Any, t, u, root, [], check)
  {
  }

  lemma GatedTells(t: Celltype, u: Celltype, base: Celltype, path: Path, check: nat)
    requires path != [] && base != t
    ensures Tells(GATED, Any, t, u, base, path, check)
  {
    assert Convert(GATED, Got(0), t, base) == Got(1);
    GatedPasses(base, path);
    assert Project(GATED, Got(0), t, path) == Project(GATED, Failed, Member(t, path[0]), path[1..]);
    assert Project(GATED, Failed, Member(t, path[0]), path[1..]) == Failed;
  }

  lemma {:induction false} GatedPasses(t: Celltype, path: Path)
    ensures Project(GATED, Got(1), t, path) == Got(1)
    decreases |path|
  {
    if path != [] {
      GatedPasses(Member(t, path[0]), path[1..]);
    }
  }

  lemma CountingTells(t: Celltype, u: Celltype, path: Path, check: nat)
    requires path != [] && Projected(t, path) != u
    ensures Tells(COUNTING, Any, t, u, t, path, check)
  {
    ProjectedAsIs(COUNTING, 0, t, path);
  }

  lemma CheckTells(t: Celltype, u: Celltype, base: Celltype, path: Path, check: nat)
    requires check != 0 && !(path == [] && t == u)
    ensures Tells(COUNTING, NoneChecked, t, u, base, path, check)
  {
    var d := Convert(COUNTING, Got(0), t, base);
    assert d.Got? && d.checksum >= 0;
    ProjectedAsIs(COUNTING, d.checksum, base, path);
    hide EvalExpression, Projected;
  }

  lemma PathlessChain(chain: seq<Recipe>)
    requires chain != [] && ChainPath(chain) == []
    ensures chain[0].path == []
  {
    var links := LinksOf(chain);
    ChainPathOfLinks(chain);
    assert links[0] == Link(chain[0].celltype, chain[0].path);
    assert ConcatPaths(links) == links[0].path + ConcatPaths(links[1..]);
  }

  // ----- a graph with the cell in it -----

  const PAIR: seq<nat> := [0, 1]

  function PairGraph(preserving: set<(Celltype, Celltype)>, later: Graph, edge: Edge, check: nat): D.Wired
    requires IntoCell(later, edge)
  {
    D.Wired(map[0 := D.Producer(NodeCelltype(later, edge.source), Some(0), []),
                1 := Fed(D.Wired(map[], {}), preserving, later, edge, 0, check)], {})
  }

  /** The evaluations that the cell needs. */
  function RunsFor(preserving: set<(Celltype, Celltype)>, later: Graph, edge: Edge, check: nat): seq<D.Run>
    requires IntoCell(later, edge)
  {
    var t, u, none := NodeCelltype(later, edge.source), later[edge.target].celltype, D.Wired(map[], {});
    if Converts(later, edge) then E.SourceRuns(none, preserving, t, edge.sourcePath, edge.steps)
    else D.ProjectionRuns(none, t, edge.sourcePath, u, check)
  }

  lemma PairIsOrdered(preserving: set<(Celltype, Celltype)>, later: Graph, edge: Edge, check: nat)
    requires IntoCell(later, edge)
    ensures var g := PairGraph(preserving, later, edge, check);
            && G.Ordered(g, PAIR) && X.Plain(g)
            && Fed(g, preserving, later, edge, 0, check) == g.nodes[1]
  {
    var g := PairGraph(preserving, later, edge, check);
    assert PAIR[..1] == [0] && PAIR[..0] == [];
    E.SameSourceRuns(g, D.Wired(map[], {}), preserving, NodeCelltype(later, edge.source), edge.sourcePath, edge.steps);
    assert forall n :: n in g.nodes <==> n in PAIR;
    hide E.SourceRuns;
    forall i | 0 <= i < |PAIR| ensures D.Sources(g.nodes[PAIR[i]]) <= G.Before(PAIR, i) {
    }
  }

  /** The cell demands the facts of its evaluations only. */
  lemma PairDemands(g: D.Wired, preserving: set<(Celltype, Celltype)>, later: Graph, edge: Edge, check: nat,
      facts: D.Facts, states: D.States)
    requires IntoCell(later, edge) && g.refused == {} && 1 in g.nodes && 0 in g.nodes && !g.nodes[0].Linked?
    requires g.nodes[1] == Fed(g, preserving, later, edge, 0, check)
    requires D.NodeType(g, 0) == NodeCelltype(later, edge.source)
    requires D.StateAt(states, 0) == D.Complete(0)
    requires E.All(facts, D.Followed(facts, 0, RunsFor(preserving, later, edge, check)))
    ensures E.All(facts, D.Demands(g, facts, states, 1))
  {
    var t, none := NodeCelltype(later, edge.source), D.Wired(map[], {});
    var body := g.nodes[1];
    E.SameSourceRuns(g, none, preserving, t, edge.sourcePath, edge.steps);
    hide E.SourceRuns, D.ProjectionRuns, D.Followed;
    if Converts(later, edge) {
      ConvertingDemands(g, facts, states);
    } else if Verdict(later, edge).Own? {
      AwryDemandsNothing(g, facts, states, 1);
    } else {
      SameRuns(g, t, edge.sourcePath, body.celltype, check);
      if edge.sourcePath == [] {
        PathlessDemands(g, facts, states);
      } else {
        assert D.Fused(g, states, 0, edge.sourcePath, {}) == D.Root(0, t, edge.sourcePath);
        E.ReadRule(g, facts, states, 1, D.Root(0, t, edge.sourcePath));
      }
    }
  }

  lemma SameRuns(g: D.Wired, t: Celltype, path: Path, u: Celltype, check: nat)
    requires g.refused == {}
    ensures D.ProjectionRuns(g, t, path, u, check) == D.ProjectionRuns(D.Wired(map[], {}), t, path, u, check)
  {
  }

  lemma ConvertingDemands(g: D.Wired, facts: D.Facts, states: D.States)
    requires 1 in g.nodes && g.nodes[1].Linked? && g.nodes[1].edge.converts && D.StateAt(states, 0) == D.Complete(0)
    requires g.nodes[1].edge.source == 0 && E.All(facts, D.Followed(facts, 0, g.nodes[1].edge.runs))
    ensures E.All(facts, D.Demands(g, facts, states, 1))
  {
    var edge := g.nodes[1].edge;
    assert D.Rooted(g, states, g.nodes[1]) == g.nodes[1] && D.OwnOf(g, g.nodes[1]) == [];
    hide D.Follow;
  }

  lemma AwryDemandsNothing(g: D.Wired, facts: D.Facts, states: D.States, n: nat)
    requires n in g.nodes && g.nodes[n].Linked? && g.nodes[n].edge.wiring.Own?
    ensures D.Demands(g, facts, states, n) == {}
  {
  }

  lemma PathlessDemands(g: D.Wired, facts: D.Facts, states: D.States)
    requires 1 in g.nodes && g.nodes[1].Linked? && D.StateAt(states, 0) == D.Complete(0)
    requires var edge := g.nodes[1].edge; edge.source == 0 && !edge.converts && edge.path == [] && edge.runs == []
    requires var body := g.nodes[1];
             E.All(facts, D.Followed(facts, 0, D.ProjectionRuns(g, D.NodeType(g, 0), [], body.celltype, body.check)))
    ensures E.All(facts, D.Demands(g, facts, states, 1))
  {
    var body := g.nodes[1];
    assert D.Rooted(g, states, body) == body;
    assert D.Followed(facts, 0, []) == {};
    hide D.ProjectionRuns;
  }

  lemma PairWorld(sem: Semantics, valid: E.Validity, later: Graph, edge: Edge, other: Edge, check: nat)
      returns (w: World)
    requires IntoCell(later, edge) && IntoCell(later, other) && other.source == edge.source
    requires other.target == edge.target
    requires Lawful(sem) && E.Ranged(sem) && E.Lenient(valid)
    ensures Fits(w, later, edge, check) && Quiet(w, later, edge, check) && Quiet(w, later, other, check)
    ensures w.sem == sem && w.valid == valid && w.c == 0
  {
    var g, t := PairGraph(sem.preserving, later, edge, check), NodeCelltype(later, edge.source);
    var a, b := RunsFor(sem.preserving, later, edge, check), RunsFor(sem.preserving, later, other, check);
    var keys := E.KeysAlong(sem, valid, 0, a) + E.KeysAlong(sem, valid, 0, b);
    var facts := E.FactsAt(sem, valid, keys);
    E.FactsTell(sem, valid, keys);
    E.KeysAreThere(sem, valid, keys, 0, a);
    E.KeysAreThere(sem, valid, keys, 0, b);
    PairIsOrdered(sem.preserving, later, edge, check);
    G.DerivedIsSolution(g, facts, PAIR);
    var states := G.DeriveUpTo(g, facts, PAIR);
    assert D.StateAt(states, 0) == D.Complete(0) by { ProducerIsComplete(g, facts, states); }
    w := World(sem, valid, g, PAIR, 1, facts, states, 0, 0);
    hide G.Ordered, G.Solution, X.Plain, G.DeriveUpTo, E.SourceRuns, RunsFor, D.Demands, E.Tells, D.Followed;
    TwinIs(w, later, edge, check);
    TwinIs(w, later, other, check);
    PairDemands(Twin(w, later, edge, check), sem.preserving, later, edge, check, facts, states);
    PairDemands(Twin(w, later, other, check), sem.preserving, later, other, check, facts, states);
  }

  lemma ProducerIsComplete(g: D.Wired, facts: D.Facts, states: D.States)
    requires G.Solution(g, facts, states) && 0 in g.nodes && g.nodes[0].Producer? && g.nodes[0].value == Some(0)
    requires g.nodes[0].own == []
    ensures D.StateAt(states, 0) == D.Complete(0)
  {
    assert states[0] == D.Rule(g, facts, states, 0);
    assert D.Follow(facts, 0, []) == D.Reached(0);
  }

  lemma TwinIs(w: World, later: Graph, edge: Edge, check: nat)
    requires IntoCell(later, edge) && w.order == PAIR && w.i == 1 && 0 in w.g.nodes
    ensures var h := Twin(w, later, edge, check);
            && h.refused == w.g.refused && 1 in h.nodes && 0 in h.nodes && h.nodes[0] == w.g.nodes[0]
            && h.nodes[1] == Fed(h, w.sem.preserving, later, edge, w.m, check) && D.NodeType(h, 0) == D.NodeType(w.g, 0)
  {
    var h := Twin(w, later, edge, check);
    E.SameSourceRuns(h, w.g, w.sem.preserving, NodeCelltype(later, edge.source), edge.sourcePath, edge.steps);
    hide E.SourceRuns;
  }

  // ----- the two cells -----

  /** In every derived graph in which the running edge feeds the cell, with the facts there that it
      and its reloaded twin demand, the twin would have the cell show the same value: exactly if the
      edge is unharmed. */
  lemma ReloadedCellIff(origin: Celltype, graph: Graph, later: Graph, edge: Edge, check: nat)
    requires Stands(origin, graph, later, edge)
    ensures IntoCell(later, Loaded(graph, edge))
    ensures (forall w: World ::
               Fits(w, later, edge, check) && Quiet(w, later, edge, check)
                 && Quiet(w, later, Loaded(graph, edge), check) ==>
               E.ValueOf(D.StateAt(w.states, Cell(w))) == Shows(w, later, Loaded(graph, edge), check))
            <==> Unharmed(graph, later, edge, check)
  {
    LookedThroughAlike(origin, graph, later, edge);
    var loaded := Loaded(graph, edge);
    if Unharmed(graph, later, edge, check) {
      forall w: World |
        Fits(w, later, edge, check) && Quiet(w, later, edge, check) && Quiet(w, later, loaded, check)
        ensures E.ValueOf(D.StateAt(w.states, Cell(w))) == Shows(w, later, loaded, check)
      {
        RunningShows(w, later, edge, check);
        UnharmedInWorld(origin, graph, later, edge, check, w);
      }
    } else {
      var w := HarmedWorld(origin, graph, later, edge, check);
      RunningShows(w, later, edge, check);
    }
  }

  lemma UnharmedInWorld(origin: Celltype, graph: Graph, later: Graph, edge: Edge, check: nat, w: World)
    requires Stands(origin, graph, later, edge) && Unharmed(graph, later, edge, check)
    requires IntoCell(later, Loaded(graph, edge))
    requires Fits(w, later, edge, check) && Quiet(w, later, edge, check) && Quiet(w, later, Loaded(graph, edge), check)
    ensures Shows(w, later, edge, check) == Shows(w, later, Loaded(graph, edge), check)
  {
    LookedThroughAlike(origin, graph, later, edge);
    assert Lawful(w.sem) && E.Lenient(w.valid);
    hide *;
    RuleShows(w, later, edge, edge, check);
    RuleShows(w, later, edge, Loaded(graph, edge), check);
    UnharmedShowsSame(w.sem, w.valid, w.c, origin, graph, later, edge, check);
  }

  lemma HarmedWorld(origin: Celltype, graph: Graph, later: Graph, edge: Edge, check: nat) returns (w: World)
    requires Stands(origin, graph, later, edge) && !Unharmed(graph, later, edge, check)
    requires IntoCell(later, Loaded(graph, edge))
    ensures Fits(w, later, edge, check) && Quiet(w, later, edge, check) && Quiet(w, later, Loaded(graph, edge), check)
    ensures Shows(w, later, edge, check) != Shows(w, later, Loaded(graph, edge), check)
  {
    LookedThroughAlike(origin, graph, later, edge);
    assert !LooksThrough(later, edge) && edge.steps != [];
    var sem, valid;
    if Loaded(graph, edge).steps != [] {
      sem, valid := COUNTING, Any;
      AllLawful(Mixed);
      hide *;
      KeptHarms(origin, graph, later, edge, check);
    } else {
      hide *;
      sem, valid := DroppedHarms(origin, graph, later, edge, check);
    }
    w := PairWorld(sem, valid, later, edge, Loaded(graph, edge), check);
    RuleShows(w, later, edge, edge, check);
    RuleShows(w, later, edge, Loaded(graph, edge), check);
  }

  // ----- a cell that changes by the reload alone -----

  lemma EdgeStands()
    ensures Stands(Mixed, MIXED_GRAPH, MIXED_GRAPH, EDGE)
    ensures !LooksThrough(MIXED_GRAPH, EDGE) && Loaded(MIXED_GRAPH, EDGE).steps == []
    ensures Base(Mixed, Mixed, CHAIN) == Mixed
  {
    EdgeIsRegistered();
    assert !LinkDefect(MIXED_GRAPH, CHAIN, 0);
  }

  lemma EdgeShows()
    requires IntoCell(MIXED_GRAPH, Loaded(MIXED_GRAPH, EDGE))
    ensures Shown(COUNTING, Any, 0, MIXED_GRAPH, EDGE, 0) == Some(0)
    ensures Shown(COUNTING, Any, 0, MIXED_GRAPH, Loaded(MIXED_GRAPH, EDGE), 0) == Some(1)
  {
    var u := Named("plain");
    EdgeStands();
    CountingIsLawful();
    assert NodeCelltype(MIXED_GRAPH, ["a"]) == Mixed && MIXED_GRAPH[["b"]].celltype == u;
    assert EvalExpression(COUNTING, Got(0), Mixed, [], u) == Got(1);
    assert EvalExpression(COUNTING, Got(0), Mixed, [], Mixed) == Got(0);
    assert Project(COUNTING, Got(0), Mixed, []) == Got(0);
    assert E.Plainly(COUNTING, Any, 0, Mixed, [], u, 0) == Got(1);
    hide Stands, LooksThrough, Loaded, Shown, Registered, EvalExpression, E.Plainly, Project;
    DroppedShown(COUNTING, Any, 0, Mixed, MIXED_GRAPH, MIXED_GRAPH, EDGE, 0);
  }

  lemma EdgeIsHarmed()
    ensures !Unharmed(MIXED_GRAPH, MIXED_GRAPH, EDGE, 0)
  {
    EdgeStands();
    assert NodeCelltype(MIXED_GRAPH, ["a"]) == Mixed;
    hide LooksThrough, Loaded;
  }

  /** A mixed cell bound through a conversion to mixed, to a plain cell: shown as it is while the edge
      runs, and converted once it is reloaded. Nothing is retyped. */
  lemma ReloadedCellFails() returns (w: World)
    ensures Stands(Mixed, MIXED_GRAPH, MIXED_GRAPH, EDGE) && !Unharmed(MIXED_GRAPH, MIXED_GRAPH, EDGE, 0)
    ensures IntoCell(MIXED_GRAPH, Loaded(MIXED_GRAPH, EDGE)) && Fits(w, MIXED_GRAPH, EDGE, 0)
    ensures E.ValueOf(D.StateAt(w.states, Cell(w))) == Some(0)
    ensures Shows(w, MIXED_GRAPH, Loaded(MIXED_GRAPH, EDGE), 0) == Some(1)
  {
    EdgeStands();
    EdgeIsHarmed();
    LookedThroughAlike(Mixed, MIXED_GRAPH, MIXED_GRAPH, EDGE);
    EdgeShows();
    AllLawful(Mixed);
    assert IntoCell(MIXED_GRAPH, EDGE);
    hide *;
    w := PairWorld(COUNTING, Any, MIXED_GRAPH, EDGE, Loaded(MIXED_GRAPH, EDGE), 0);
    RuleShows(w, MIXED_GRAPH, EDGE, EDGE, 0);
    RunningShows(w, MIXED_GRAPH, EDGE, 0);
    RuleShows(w, MIXED_GRAPH, EDGE, Loaded(MIXED_GRAPH, EDGE), 0);
  }
}
