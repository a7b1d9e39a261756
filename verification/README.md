# A model of seamless_workflow

`seamless_workflow` is a reactive dataflow engine. One controller thread owns a graph of cells and
transformers, derives a state and a checksum for every node, has expressions evaluated off-thread,
and keeps cells in step with files, widgets and HTTP shares. This project models five of its parts
and proves what they promise, for every input and every run.

| part | files |
|---|---|
| Recipes: links, deep steps, fusion, handles | `Recipes`, `WellFormedLinks`, `Fusion`, `FusionOptimal`, `CutRecipes`, `Handles` |
| Symbols, saving and reloading | `Symbols`, `SaveReload`, `RecordedLinks`, `MiswiredEdges`, `ReloadMeaning`, `RetypedReload`, `ReloadedLinks`, `ReloadedCells` |
| The graph: cycle guard, derivation, causes, run ledger, reference counts | `Dag`, `Derivation`, `DerivedGraphs`, `DerivedCauses`, `BlockedCells`, `BlockedRuns`, `FusedReads`, `EdgeRuns`, `InputValues`, `JoinedCells`, `TransformerInputs`, `ShownStates`, `Deriver`, `RunLedger`, `RunHolds`, `ScratchRuns`, `RunsAccounted`, `Engine`, `HeldTurns`, `Refholds` |
| The share registry and its markers | `ShareRegistry`, `ShareTables`, `ShareKeys`, `ShareSteps`, `ShareRuns`, `ShareValues`, `ShareNames`, `ShareHolds`, `ShareServer`, `ShareFailures` |
| Attachment sessions, their protocol, barriers and the serial queue | `MountSession`, `MountPolicies`, `DeliveredValues`, `SessionProtocol`, `ShareHistories`, `CutBarrier`, `SerialQueue` |

Where the source changes an object step by step there is a class whose methods do the same and are
proved equal to a function on the object's value; what is promised over runs is then proved about
that function. A controller turn, a locked section of the share server and a worker's transition
are each one atomic step. Checksums, celltype names, routes' path segments and owners are compared
only, so they are numbers here. Evaluation is abstract: `Fusion.Semantics` reads one path
component, converts, and names the preserving conversions; `Fusion.Lawful` assumes only that
converting to the same celltype and a preserving conversion leave the checksum alone. Projection
along a path is then composed, not assumed. Time is a parameter of each step.

## What came out

* A handle applies its conversions in the order they were written, an edge in path order. The two
  spell the same chain for all celltypes exactly when they were written in path order
  (`Handles.HandleOrderAgrees`).
* Cutting a recipe at its deep step lines up with the links that the whole recipe makes at the same
  celltype exactly when the step yields a celltype that is not deep or its first segment has at most
  two components (`Recipes.DeepSplitAligns`). The case that differs is one of the two functions
  alone: the evaluator rejects such a recipe, by `deep_recipe_error`, before it cuts anything
  (`Recipes.SlicedDeepStepMisaligns`). What the recipe evaluates to is the same, cut or not
  (`CutRecipes.CutMeansWhole`).
* The evaluator makes an edge's links anew, at its source's present celltype, and names them by
  their index in the chain recorded when the edge was added. While no recorded link is ill-formed
  the index is right where the recipe is cut (`RecordedLinks.CutNamesTheLinks`), and otherwise
  exactly if the chain does not begin with two path links whose source is deep no more
  (`RecordedLinks.RecordedLinksIff`). A deepcell read at two components, converted twice and then
  retyped to mixed is such an edge: the run that ends at its first conversion is held under the
  symbol of the second component, and so is the run of any other edge that begins with those links
  (`RecordedLinks.RetypedDeepEdgesShareASymbol`). After a reload what was dropped must all be at
  the end of the chain besides (`ReloadedLinks.ReloadedLinksIff`).
* The links made from a recipe can be ill-formed from the start: they are not exactly when every
  stretch of its path that is read below a deep celltype begins with a key
  (`WellFormedLinks.AnonymousLinksWellFormedIff`).
* Greedy fusion is optimal without identity conversions; with one it can take a run more than is
  needed (`FusionOptimal.IdentityCostsARun`).
* A reloaded edge drops the conversions that changed nothing when the graph was loaded. Its runs may
  then evaluate differently from the running edge's after its source is retyped: for some later
  celltype exactly when the first conversion is dropped (`RetypedReload.ReloadMeansTheSameIff`),
  and, as long as no recorded link is ill-formed, exactly when the chain begins with a conversion to
  the very celltype its source had (`RetypedReload.RetypingShowsIff`,
  `RetypedReload.RetypedEdgeDiverges`).
* A reload can also change what a cell shows where nothing is retyped. An edge that lost all its
  conversions counts as having none, and the rule of a cell fed by it reads that: it then converts
  to the cell's own celltype and validates, and it reads through a chain of such edges. The cell
  shows the same over every graph, value and semantics exactly when the edge is looked through or
  had no conversion; or it keeps one, and its first is not one to the celltype of a source that has
  since been retyped; or it keeps none, but what it yields is of the cell's celltype, the retyping
  does not touch it, and no validator runs that did not before (`ReloadedCells.ReloadedCellIff`,
  `ReloadedCells.Unharmed`). A mixed cell bound to a plain one through a conversion to mixed is shown
  as it is, and converted to plain once it is reloaded (`ReloadedCells.ReloadedCellFails`).
* The running and the reloaded edge agree on `edge_miswiring` in every graph
  (`SaveReload.ReloadAgrees`), but the evaluator also tests an edge that reads a path without a
  conversion, and the reload can leave it without: `RetypedReload.RefusalDiffersIff` says exactly
  when.
* Saved once more, a loaded edge keeps its symbol and its entries, unless it was a lone conversion
  to its source's own celltype into a member of a deep cell: this one loses its conversion and with
  it its symbol (`SaveReload.SaveLoadSave`).
* A cell's value, once shown, is final for its graph (`DerivedGraphs.ShownValuesAreFinal`). A blocked
  state is not. As facts come in a source's value is final too, and a source that has neither a
  value nor anything to wait for gets neither (`BlockedRuns.EveryStateMovesOn`). Whatever else
  becomes of its sources, a blocked joined cell stays blocked exactly when no part's own conversion
  is still to come: no such conversion lacks a fact, or has a source that still works
  (`BlockedCells.BlockedStaysIff`). It then stays so over every run of turns
  (`BlockedRuns.BlockedStaysOverTurns`). A cell with one part unwired, and a part whose source is
  still converting, is blocked and later failed (`BlockedRuns.BlockedCellFails`).
* A mount request gives up the lease of the delivery that waits before it asks for its own. Exactly
  when that is refused, the old delivery goes on waiting without a lease, and leaves without one
  (`MountSessions.StepKeeps`, `MountSessions.RefusedEditDeprives`).
* An edit from the value on disk and back again within the interval between deliveries leaves the first
  edit's delivery waiting, and it leaves at a later turn: over the node's own value, of another one. A
  step makes what waits out of date exactly so, or when an edit is refused its lease, or when a failed
  delivery comes back (`DeliveredValues.OutdatesIff`, `DeliveredValues.EditBackLeavesADelivery`).
* Reserving at once over a held share of the same key but another route leaves the old one
  answering there, out of the record table; a reservation at once keeps the registry coherent
  exactly when it does not. Routes and markers stay sound all the same
  (`ShareSteps.DirectReserveCoherentIff`, `ShareFailures.MovingToTheTopOrphans`,
  `ShareRuns.EveryRunIsSound`).
* A commit can find a namespace gone. The tables are then as they were, but a namespace before it in
  the batch may have changed owner; the whole state is as it was exactly when none is taken over
  (`ShareFailures.CommitFindsNamespaceGone`, `ShareFailures.GoneCommitLeavesAllIff`).
* The initial observation of a share is always "absent", also when the registration took over a
  held value. A delivery that is installed replaces what its session had read exactly when something
  had been written before it or there was no such value (`SessionProtocol.NoBlindOverwrite`,
  `SessionProtocol.AdoptedValueIsOverwritten`).

## Model

| member | source | states |
|---|---|---|
| `Recipes.ComputeProjected` | seamless_workflow/graph.py:139-148 | the loop over the path computes the projection, component by component |
| `Recipes.ProjectedConcat` | seamless_workflow/graph.py:139-148 | projecting along a joined path is projecting twice |
| `Recipes.SortIsStable` | seamless_workflow/graph.py:200-205 | conversions at one position keep the order in which they were written |
| `Recipes.ComputeAnonymousLinks` | seamless_workflow/graph.py:173-211 | the loop with its running celltype makes the links of the specification, for unsorted and out-of-range positions too |
| `Recipes.AnonymousLinksContent` | seamless_workflow/graph.py:173-211 | a recipe's links spell out exactly its path and its conversions, in sorted order: none lost, none added |
| `Recipes.AnonymousLinksWellTyped` | seamless_workflow/graph.py:173-211 | every path link made from a recipe records the celltype its source projects to |
| `WellFormedLinks.AnonymousLinksWellFormedIff` | seamless_workflow/graph.py:151-211 | no link made from a recipe is ill-formed over its source if and only if every stretch of the path between two conversions that is read below a deep celltype begins with a key |
| `Recipes.DeepSplitAligns` | seamless_workflow/graph.py:280-308 | prefix, step and rest give the same links as the whole recipe if and only if the member is not deep or the first segment has at most two components |
| `Recipes.ChainOffsetNamesTheLink` | seamless_workflow/context.py:2449-2511 | after a cut with a non-deep member, chain offset plus last link indexes, among the links that the whole recipe makes at the present celltype, the one that the run ended at |
| `Recipes.SlicedDeepStepMisaligns` | seamless_workflow/graph.py:280-308 | a slice step over a deep celltype with three components is a case where the two functions differ |
| `Fusion.ProjectConcat` | seamless_workflow/graph.py:139-148 | reading a joined path is reading its parts one after the other |
| `Fusion.FusibleRuns` | seamless_workflow/graph.py:214-277 | the loop with its open run computes the fused runs of the specification |
| `Fusion.FusionPreservesMeaning` | seamless_workflow/graph.py:214-277 | for well-typed links, evaluating the runs up to any run equals evaluating each link up to that run's last, the runs tile the links, and the last reaches the end |
| `Fusion.RecipeFusionPreservesMeaning` | seamless_workflow/graph.py:173-277 | the same for every recipe and at every run, with no condition on path, positions or conversions |
| `CutRecipes.CutMeansWhole` | seamless_workflow/graph.py:280-308 | prefix, step and rest of a cut recipe, one after the other, evaluate to what all its links do, for every recipe that is cut |
| `CutRecipes.EvaluateSource` | seamless_workflow/context.py:1698-1735 | the loops over prefix, step and runs of the rest yield the outcome of all links one by one, and what they hold for a link is what the links up to it evaluate to unless the step stays deep |
| `FusionOptimal.GreedyFusionIsOptimal` | seamless_workflow/graph.py:214-277 | without identity conversions the runs are the fewest of all cuts into legal Expressions, and no two neighbours could be merged |
| `FusionOptimal.GreedyStaysAhead` | seamless_workflow/graph.py:214-277 | after as many pieces as any legal cut, the greedy runs have covered at least as many links |
| `FusionOptimal.IdentityCostsARun` | seamless_workflow/graph.py:214-277 | with an identity conversion greedy fusion uses two runs where one means the same |
| `Handles.HandleLinks` | seamless_workflow/builder_state.py:143-153 | the loop yields path components and conversions in the order written, positions clamped as it goes |
| `Handles.HandleMeansLinks` | seamless_workflow/builder_state.py:155-191 | over one list of steps the handle chain and the segment chain denote the same composition and end in the same celltype |
| `Handles.HandleMeansRuns` | seamless_workflow/builder_state.py:143-191 | a handle written in path order evaluates to what the edge's fused runs evaluate to |
| `Handles.HandleOrderAgrees` | seamless_workflow/builder_state.py:143-153 | written order and sorted order spell the same chain for all celltypes if and only if the positions ascend |
| `Symbols.FirstFree` | seamless_workflow/graph.py:422-441 | the symbol with the least free suffix |
| `Symbols.SymbolTable.AssignSymbol` | seamless_workflow/graph.py:422-441 | a known recipe keeps its symbol; a new one gets a symbol no recipe has, so the table stays injective and every other entry as it was |
| `Symbols.SymbolTable.AssignChain` | seamless_workflow/graph.py:443-456 | the chain records each link over the symbol of the one before, and no earlier symbol changes |
| `SaveReload.ChainMiswired` | seamless_workflow/graph.py:491-510 | true exactly if some recorded link is ill-formed, read at the named source's current celltype |
| `SaveReload.Register` | seamless_workflow/graph.py:458-480 | registering an edge records the links of its recipe and leaves it well stored |
| `SaveReload.SaveChain` | seamless_workflow/context.py:3030-3088 | the saved entries cover the chain under its symbols and keep what was saved before |
| `SaveReload.SaveGraph` | seamless_workflow/context.py:3030-3088 | every edge is saved directly if it collapses and by its chain's symbol otherwise, with one table of entries that covers all chains |
| `SaveReload.RebuildsOnce` | seamless_workflow/serialization.py:165-271 | a symbol stands for at most one chain |
| `SaveReload.SavedChainRebuilds` | seamless_workflow/graph.py:422-480 | following the symbol saved for a chain rebuilds exactly that chain |
| `SaveReload.CycleRebuildsNothing` | seamless_workflow/serialization.py:171-176 | a symbol met again while it is being resolved stands for no chain |
| `SaveReload.Loader.Resolve` | seamless_workflow/serialization.py:165-193 | with its memo and cycle check, resolution returns the chain behind a symbol, and fails exactly if there is none |
| `SaveReload.EnterSymbols` | seamless_workflow/serialization.py:134-165 | the saved symbols are entered first: every entry's recipe has one of its symbols, and no two recipes share one |
| `SaveReload.LoadEdge` | seamless_workflow/serialization.py:166-275 | a direct reference is registered afresh, a symbol gives back its recorded chain, its path and the conversions that change something; either way the edge is stored as a registered one is, and no saved symbol changes |
| `SaveReload.ReloadAgrees` | seamless_workflow/graph.py:563-618 | the loaded edge has the same endpoints, and the same miswiring in every later retyping of the graph |
| `MiswiredEdges.EdgeMiswiringIff` | seamless_workflow/graph.py:563-593 | for every registered edge and every graph its source and target are in by then: an edge that is one link is miswired if and only if its path reads awry at its source's and target's present celltypes; any other blocks its target if and only if its recipe, as written, does not read on at the source's present celltype |
| `MiswiredEdges.OneLinkIff` | seamless_workflow/graph.py:519-546 | an edge is looked through if and only if its recipe is a path that splits nowhere, or one conversion to what its target takes that is not into a deep cell's slot |
| `MiswiredEdges.LinksHoldIff` | seamless_workflow/graph.py:151-170 | links written at one celltype are well-formed at another if and only if the path up to the first conversion leads to the same celltype there, by one key at a time where that is deep, and each later stretch below a deep celltype begins with a key |
| `MiswiredEdges.MiswiredCell` | seamless_workflow/context.py:2344-2352 | a cell fed as a whole by such an edge is miswired if the edge is, and blocked by miswiring if and only if the edge's recipe does not read on or its source carries that reason |
| `SaveReload.SaveAndLoad` | seamless_workflow/serialization.py:134-275 | saving a graph and loading it brings every edge back: endpoints, chain and miswiring, after arbitrary retypes; every saved recipe keeps its symbol, and every loaded edge hangs together through the new symbol table |
| `SaveReload.SaveLoadSave` | seamless_workflow/graph.py:422-480 | a graph saved, loaded and saved again refers to an edge as at first, with its chain under the same symbols, if and only if the edge is not a conversion to its source's own celltype into a deep member of that celltype |
| `ReloadMeaning.ReloadedEdgeMeansTheSame` | seamless_workflow/serialization.py:194-262 | while the chain is well-typed, the fused runs of the reloaded edge evaluate to what those of the recorded chain do |
| `ReloadMeaning.ReloadKeepsConversionsIff` | seamless_workflow/serialization.py:194-262 | a reloaded edge lists all its recorded conversions if and only if each of them changed the celltype at the time |
| `RetypedReload.ReloadMeansTheSameIff` | seamless_workflow/serialization.py:177-262 | the fused runs of a registered edge and of its reloaded twin evaluate alike over every later source celltype and in every semantics if and only if the chain has no conversion or its first one changed the celltype when it was loaded |
| `RetypedReload.RetypingShowsIff` | seamless_workflow/serialization.py:177-262 | over the retypings that leave no recorded link ill-formed they evaluate alike if and only if the chain does not begin with a conversion to the celltype its source had when it was loaded |
| `RecordedLinks.RecordedLinksIff` | seamless_workflow/context.py:1684-1696 | over every retyping that leaves no recorded link ill-formed, the links made at the present celltype are the recorded ones, and any index names the recorded link of an evaluated one, if and only if the chain does not begin with two path links whose source is deep no more; where the recipe is cut at a deep step this always holds |
| `RecordedLinks.CutNamesTheLinks` | seamless_workflow/context.py:1698-1735 | where the recipe is cut, the member is not deep, and the recorded chain is the prefix's conversions, the step, and the links of the rest, each at the index under which it is held |
| `RecordedLinks.RetypedDeepEdgesShareASymbol` | seamless_workflow/context.py:2480-2511 | two edges from a retyped source whose first runs, of different conversions, end at an index that names one recorded link, of a path component |
| `ReloadedLinks.ReloadedLinksIff` | seamless_workflow/serialization.py:177-203 | the same of the reloaded edge: if and only if besides this all conversions that were dropped are at the end of the chain |
| `EdgeRuns.SourceRan` | seamless_workflow/context.py:2449-2516 | the Expressions of an edge's recipe, cut at its deep step, fused, and split again at a deep barrier, yield what its links do one by one |
| `ReloadedCells.ReloadedCellIff` | seamless_workflow/context.py:1789-1862 | over every derived graph with a cell fed by the running edge, its reloaded twin in that place would have the cell show the same value, once the facts either demands are in, if and only if the edge is `Unharmed`, a test of its chain, path, target and validator, and of the source's celltypes |
| `ReloadedCells.ReloadedCellFails` | seamless_workflow/context.py:1851-1862 | a derived graph in which nothing was retyped and a cell shows 0, and with the reloaded edge 1 |
| `RetypedReload.RefusalDiffersIff` | seamless_workflow/context.py:2366-2378 | the evaluator's test of an edge without a conversion treats the running and the reloaded edge differently if and only if all of its conversions, at least one, were dropped before a path whose recorded celltype is not the projected one |
| `RetypedReload.RetypedEdgeDiverges` | seamless_workflow/serialization.py:199-200 | an edge saved by its symbol whose running form converts once after a retyping of its source, and whose reloaded form never does |
| `Dag.WouldCycle` | seamless_workflow/context.py:1429-1447 | the walk terminates and is true if and only if the target reaches the source |
| `Dag.Graph.AddEdge` | seamless_workflow/context.py:1395-1427 | an edge is refused, with no change, for the first of: a root edge would meet a sub-path edge, the target is sensed, it would depend on itself, it would close a cycle, the path is taken; otherwise it replaces what fed its path and all below it, the graph stays acyclic, and each path keeps one producer |
| `Dag.AddEdgeKeepsAcyclic` | seamless_workflow/context.py:1395-1447 | a guarded edge, after its path is cleared, closes no cycle |
| `Dag.AddEdgeKeepsApart` | seamless_workflow/context.py:1395-1427 | after a new edge no two edges into a node feed paths of which one lies within the other |
| `Dag.Graph.RemoveEdgesTargeting` | seamless_workflow/context.py:1462-1486 | removes exactly the edges into the path, or into it and all below; the graph stays acyclic with one producer for each path |
| `Dag.Graph.DeleteSubtree` | seamless_workflow/context.py:658-693 | removes the subtree's nodes and exactly the edges at them; the graph stays acyclic |
| `Dag.DeriveOrder` | seamless_workflow/context.py:1615-1624 | the depth-first walk lists each node once, after all its sources |
| `Dag.OrderedIsAcyclic` | seamless_workflow/serialization.py:276-285 | nodes that can be listed sources first have no cycle among them |
| `Dag.PreparedGraphIsAcyclic` | seamless_workflow/serialization.py:276-285 | the check on a loaded graph accepts it if and only if it is acyclic |
| `Derivation.RuleReads` | seamless_workflow/context.py:1777-1967 | a node's state and the facts it demands depend on those facts, on its sources' states and on those of the cells it reads a path through, and on nothing else |
| `DerivedGraphs.OneSolution` | seamless_workflow/context.py:1607-1637 | the states of an acyclic graph are the one solution of its nodes' rules, whatever order of nodes they were found in; facts that nobody demands do not matter |
| `DerivedGraphs.DerivedIsSolution` | seamless_workflow/context.py:1615-1625 | deriving each node once, sources first, solves every rule |
| `DerivedGraphs.TurnIsDerived` | seamless_workflow/context.py:1607-1637 | after a turn, with unused facts purged, the states solve the rules and the jobs are exactly the missing facts that are demanded |
| `DerivedGraphs.EveryRunIsDerived` | seamless_workflow/context.py:2287-2293 | that holds after any arrivals, late ones included, and any forgetting of facts |
| `DerivedGraphs.Confluence` | seamless_workflow/context.py:1607-1637 | any two runs on a graph that end with no job leave every node in the same state, whatever order facts came in and whatever was purged and demanded again |
| `DerivedGraphs.ShownValuesAreFinal` | seamless_workflow/context.py:1777-1967 | a value shown while facts are missing is the value shown when all are in |
| `DerivedCauses.WorkHasAReason` | seamless_workflow/context.py:2187-2293 | a node that waits or computes demands a missing fact or hangs on one that does |
| `DerivedCauses.WaitingNodesHaveJobs` | seamless_workflow/context.py:2187-2293 | of the derivation alone, where an execution's outcome is a fact like any other: a waiting or computing node has, at itself or upstream, a node whose missing fact is outstanding |
| `DerivedCauses.NoJobsMeansQuiet` | seamless_workflow/runtime_api.py:108-150 | of the derivation alone: with no fact outstanding no node waits or computes |
| `DerivedCauses.ReasonGoesUpstream` | seamless_workflow/context.py:2344-2447 | a node carrying a reason has a defect of that class itself or a source that carries the same reason |
| `DerivedCauses.EveryReasonHasARoot` | seamless_workflow/context.py:2523-2579 | every miswired, unwired, failed or blocked node has an upstream walk of nodes that carry the reason, ending at a genuine defect of that class |
| `DerivedCauses.TransformerPriority` | seamless_workflow/reactive.py:140-162 | a transformer shows the most urgent lack among its inputs, and its execution's outcome if none lacks |
| `BlockedCells.BlockedStaysIff` | seamless_workflow/context.py:1889-1926 | a blocked joined cell stays blocked under all facts to come, and whatever its sources may become meanwhile, if and only if no part's own conversion is still to come: none lacks a fact, and none has a source that still works and legal runs from it |
| `BlockedRuns.EveryStateMovesOn` | seamless_workflow/context.py:1777-1967 | as facts come in to an acyclic graph, every value stays, and every node with neither a value nor anything to wait for stays so |
| `BlockedRuns.GraphBlockedIff` | seamless_workflow/context.py:1889-1926 | in a graph, a blocked joined cell of which no source still works stays blocked under all facts to come if and only if no part's own conversion is still to come |
| `BlockedRuns.BlockedStaysOverTurns` | seamless_workflow/context.py:1607-1637 | over every run of turns in which results are accepted, with all sources derived in each, a blocked joined cell of which no part's own conversion is still to come stays so |
| `BlockedRuns.BlockedCellFails` | seamless_workflow/context.py:1898-1916 | a run of three turns in which a cell is blocked, blocked, and failed, as the source of a part gets its value and the part's conversion an error |
| `InputValues.DeliversIff` | seamless_workflow/context.py:2449-2516 | an edge delivers a value if and only if it is well-formed, its facts are there, and its links, one by one, make that value of its own source's |
| `JoinedCells.JoinedCellIff` | seamless_workflow/context.py:1889-1967 | a joined cell's value is the answer to a join of one member for each slot, under the slot's name, with what that slot's own recipe and own conversion mean over its own source's value, and of the cell's own value, converted; and with all facts in, such an answer is its value |
| `JoinedCells.JoinedShows` | seamless_workflow/context.py:2523-2558 | else it fails with the first slot whose own conversion fails; is miswired if a slot is ill-formed itself; is blocked at exactly the slots that have a reason, each for its own; or waits |
| `TransformerInputs.TransformerRuns` | seamless_workflow/reactive.py:26-163 | a transformer that is complete or computes does so for one execution: of the code that arrives, and of exactly the arguments that its pins give, each under its pin's name, with what the pin's own recipe and conversion mean over its own source's value; null gives an optional pin no argument |
| `TransformerInputs.InputsAreRun` | seamless_workflow/reactive.py:26-163 | once each conversion is there, inputs that make an execution are run as that one and no other |
| `ShownStates.FollowsTheTrail` | seamless_workflow/context.py:2480-2511 | following an edge's runs ends where the chain of their facts does: at the value after the last, at a run that is refused, at a missing fact, or at an error |
| `ShownStates.LinkedShows` | seamless_workflow/context.py:1826-1862 | a cell fed as a whole: ill-formed wiring first, then its source's reason, then a failed evaluation of the edge as its own failure, or as a block where that is not recorded, then its own conversion |
| `ShownStates.TransformerShows` | seamless_workflow/reactive.py:26-164 | of all inputs an ill-formed one goes first, then a missing one, one behind miswiring, behind a missing value, behind an error, and a late one |
| `ShownStates.ReadFromFurthest` | seamless_workflow/context.py:2893-2931 | a path is read from the end of a walk up of cells, each fed by the next without a conversion, at its own celltype and not below a deep one, that goes on to no other cell |
| `FusedReads.FusedReadIsDirectRead` | seamless_workflow/context.py:2893-2931 | a cell fed at a path, whichever ancestor it is read from, has the value that its own source, projected along the path, means |
| `Deriver.Context.Project` | seamless_workflow/context.py:2480-2511 | following an edge's runs demands the facts on the way and stops at the first that is missing or failed |
| `Deriver.Context.SourceState` | seamless_workflow/context.py:2344-2516 | what an edge delivers, from its wiring, its source's state and its runs |
| `Deriver.Context.DeriveLinked` | seamless_workflow/context.py:1789-1862 | a cell fed as a whole, its own conversion included |
| `Deriver.Context.FusedProjectionSource` | seamless_workflow/context.py:2893-2931 | the walk up through root edges that convert nothing ends at the cell that the specification reads the path from |
| `Deriver.Context.DeriveJoined` | seamless_workflow/context.py:1889-1967 | a joined cell: a failed conversion of a part first, then missing parts and their reasons, then the root, then the join |
| `Deriver.Context.DeriveTransformer` | seamless_workflow/reactive.py:26-164 | a transformer's state and demanded facts from its code and pins |
| `Deriver.Context.DeriveAll` | seamless_workflow/context.py:1607-1637 | the walk derives every node, purges what nobody demands, and leaves a job for each missing fact |
| `Deriver.Context.AcceptFact` | seamless_workflow/context.py:2287-2293 | a result whose job is gone changes nothing; another becomes a fact and everything is derived again |
| `RunLedger.ContextRuntime.Supersede` | seamless_workflow/scheduler.py:71-83 | the current run joins the held ones with its deadline; beyond the cap the oldest go and are asked to stop |
| `RunLedger.ContextRuntime.ReleaseUpstreamHolds` | seamless_workflow/reactive.py:331-340 | exactly the upstream holds for other keys end |
| `RunLedger.ContextRuntime.DeriveTransformer` | seamless_workflow/reactive.py:140-213 | publishes, reinstates or launches, as the demand and the held runs say, and keeps the ledger sound |
| `RunLedger.ContextRuntime.TransformationFinished` | seamless_workflow/reactive.py:359-386 | a completion fills the run it names, current or held, and the named node is derived; one that names none changes nothing |
| `RunLedger.ContextRuntime.ExpireRun` | seamless_workflow/reactive.py:346-357 | exactly the named run goes, if its deadline has passed |
| `RunLedger.ContextRuntime.PruneHeld` | seamless_workflow/scheduler.py:85-97 | the held runs of the paths go and are asked to stop |
| `RunLedger.ContextRuntime.DeleteNode` | seamless_workflow/context.py:675-680 | every run of a deleted node goes |
| `RunLedger.DeriveKeeps` | seamless_workflow/reactive.py:163-213 | a derivation keeps every run genuine and leaves its node showing its current run |
| `RunLedger.EveryRunIsSound` | seamless_workflow/reactive.py:163-386 | the ledger is sound after any interleaving of derivations, completions, expiry, pruning, deletion, clearing and graph replacement |
| `RunLedger.ShownIsWhatWasLaunched` | seamless_workflow/reactive.py:284-294 | what a node shows was produced by an execution launched at it for the very key it was last derived for |
| `RunLedger.ComputingIsUnderWay` | seamless_workflow/reactive.py:186-213 | a computing node's execution runs on, unasked to stop, or its completion is on its way |
| `RunLedger.RunsAreApart` | seamless_workflow/scheduler.py:71-83 | at most three runs are held for a path; no two runs, of one path or of two, share a generation; two runs of a path share a key only if the later was forced |
| `RunLedger.GenerationsAreFresh` | seamless_workflow/context.py:3160-3162 | a launch takes a generation above every one ever launched, over graph replacement too |
| `RunLedger.LateCompletionIsDropped` | seamless_workflow/reactive.py:374-378 | a completion of a run that is gone changes neither runs nor nodes |
| `RunLedger.LaunchesIff` | seamless_workflow/reactive.py:186-204 | deriving a key makes its run the current one, and launches, with a fresh generation, if and only if no run of that key can be used: neither the current one, nor a held one that is left once upstream holds ended and a full queue let its oldest go |
| `RunHolds.RevertBringsBack` | seamless_workflow/reactive.py:296-321 | a run superseded while no source worked is brought back without a launch by a return to its key, over any derivations for other keys, completions and housekeeping in between, as long as at most two runs of the path were superseded since, that of the return included, and it was not pruned or expired |
| `RunHolds.RevertExpires` | seamless_workflow/scheduler.py:71-83 | till then it is not asked to stop, and an expiry takes it if and only if thirty seconds are over since |
| `RunHolds.SourceEndsTheHold` | seamless_workflow/reactive.py:331-340 | a run superseded while a source worked is asked to stop and gone for good after the first later derivation for another key |
| `RunHolds.SourceHoldExpires` | seamless_workflow/scheduler.py:71-83 | till then, unless the cap or a prune took it, an expiry takes it if and only if three hundred seconds are over since |
| `RunsAccounted.NoExecutionIsForgotten` | seamless_workflow/reactive.py:296-357 | over every run of events an execution that runs is one of the ledger's current or held runs, or was asked to stop: by the cap, a release, an expiry, a prune, a deletion, a clearing or a replaced graph |
| `ScratchRuns.ScratchIsRunAgain` | seamless_workflow/reactive.py:166-205 | over every run of events, a run that has brought its value is shown by any derivation of its key, without a launch, unless it was launched for scratch and its value is needed and out of reach: then another run for the key takes its place |
| `Engine.EveryRunRuns` | seamless_workflow/context.py:1607-1637 | controller and ledger together: over every run of turns, completions, edits and clearings, the states solve the rules over the facts and the runs shown, the ledger is sound and was derived for the runs now demanded, and the jobs are the missing facts |
| `Engine.WaitingNodesHaveWork` | seamless_workflow/context.py:2187-2293 | after any such run a waiting or computing node has, at itself or upstream, a node with an outstanding job, a running execution or a completion on its way |
| `HeldTurns.TurnHoldsTheSuperseded` | seamless_workflow/reactive.py:296-329 | a turn that lacks an input of a transformer, or wants another execution, does not stop its run; an expiry takes the run if and only if thirty seconds are over, or three hundred if a source was waiting or computing |
| `Engine.NothingLeftMeansQuiet` | seamless_workflow/runtime_api.py:108-150 | with no job, no execution and no completion left, no node waits or computes, so the barriers' test passes |
| `Engine.CompleteWasLaunched` | seamless_workflow/reactive.py:140-213 | a complete transformer shows what an execution produced that was launched at it for the very key its inputs now make |
| `Refholds.Holder.Acquire` | seamless_workflow/context.py:1656-1683 | takes every claim, or on the first refusal gives back what it took |
| `Refholds.Holder.Sync` | seamless_workflow/context.py:1163-1195 | each count changes by new claims minus old, none dips below the lesser of before and after, and a refusal restores counts and claims |
| `Refholds.Holder.Replace` | seamless_workflow/context.py:1522-1538 | the same for one slot: the new checksum is held before the old one is given up, and a refused acquire changes nothing |
| `Refholds.Balance` | seamless_workflow/context.py:1734-1755 | taking the changed new claims and dropping the changed old ones moves a count by the difference of the claimants |
| `Refholds.CountIsSize` | seamless_workflow/context.py:1163-1195 | walking the changed roles in any order counts each claimant once |
| `ShareServers.ShareServer.CheckConflicts` | seamless_workflow/attachments/share/server.py:236-298 | the conflict check, branch by branch |
| `ShareServers.ShareServer.FindHeld` | seamless_workflow/attachments/share/server.py:300-311 | the held registration of the very route |
| `ShareServers.ShareServer.ReserveUrl` | seamless_workflow/attachments/share/server.py:327-390 | a reservation, staged or at once, is made or fails for a conflict; one that is staged or supplants nothing keeps the registry sound |
| `ShareServers.ShareServer.RemoveRegistration` | seamless_workflow/attachments/share/server.py:878-906 | takes a registration out of the tables that name it, keeps its marker as the floor, and drops a namespace that was only claimed |
| `ShareServers.ShareServer.CommitReservations` | seamless_workflow/attachments/share/server.py:392-457 | the loops publish the whole batch, or fail with the tables as they were |
| `ShareServers.ShareServer.PutValue` | seamless_workflow/attachments/share/server.py:1153-1178 | a write is accepted, refused for a stale marker, or too late; an accepted new value takes the next marker |
| `ShareServers.ShareServer.DeliverValue` | seamless_workflow/attachments/share/server.py:591-625 | the same for a delivery of a value or of none, conditional on the fingerprint |
| `ShareServers.ShareServer.ExpireHolds` | seamless_workflow/attachments/share/server.py:746-778 | lapsed holds end, and a namespace with nothing left goes |
| `ShareTables.RemoveLinks` | seamless_workflow/attachments/share/server.py:878-906 | a removal leaves the tables linked: names open registrations under their own keys and routes, each open one at its route |
| `ShareTables.ListLinks` | seamless_workflow/attachments/share/server.py:425-448 | listing a registration displaces from the routes only what answered at its own |
| `ShareTables.ReadyIsPublishable` | seamless_workflow/attachments/share/server.py:313-325 | a registration ready to be published has a marker above all before it at its route, and carries a value only with that value's own marker or a new one |
| `ShareSteps.CommitIsAtomic` | seamless_workflow/attachments/share/server.py:392-457 | a commit publishes the whole batch, soundly and leaving no registration out of a table that was in it, or leaves every table; it succeeds if and only if all are staged, free of conflict, pairwise apart, and their namespaces are there |
| `ShareSteps.DirectReserveCoherentIff` | seamless_workflow/attachments/share/server.py:368-389 | a reservation at once keeps coherent tables coherent if and only if no held share of its key has another route |
| `ShareRuns.NextIsSound` | seamless_workflow/attachments/share/server.py:327-906 | every locked section keeps routes and markers sound, lets no published marker drop, and uses no marker for two values |
| `ShareRuns.NextKeepsKeys` | seamless_workflow/attachments/share/server.py:327-906 | a locked section puts no share out of the record table but the one its reservation orphans |
| `ShareRuns.EveryRunIsSound` | seamless_workflow/attachments/share/server.py:327-906 | so does every run of them |
| `ShareRuns.TablesAgree` | seamless_workflow/attachments/share/server.py:343-390 | after any run the route tables name exactly the open, published registrations, with distinct routes; so does the record table, with distinct keys, but for shares that a reservation of the run orphaned |
| `ShareRuns.ConditionalWriteReplacesTheNamed` | seamless_workflow/attachments/share/server.py:1155-1179 | a conditional write that is accepted replaces the very value its marker was published with, however long ago, or none |
| `ShareRuns.CommitDisplacesByRight` | seamless_workflow/attachments/share/server.py:236-298 | a commit closes only what a reservation of the batch supplants, or what is held where its owner may rejoin |
| `ShareValues.PutServes` | seamless_workflow/attachments/share/server.py:1153-1178 | a write is accepted if and only if the share is there and its marker the one named, if one is; the share then answers at its route with exactly the value written, one marker higher if and only if that value is new there, and no other registration and no table has changed |
| `ShareValues.DeliverServes` | seamless_workflow/attachments/share/server.py:591-625 | the same for a delivery of a value or of none, by the fingerprint |
| `ShareValues.EveryRunServesWhatWasAccepted` | seamless_workflow/attachments/share/server.py:327-906 | over every run each registration has the value last accepted for it, or what it took over from the held one at its route when it was published, or none |
| `ShareValues.CommitTakesOverHeld` | seamless_workflow/attachments/share/server.py:300-325 | a share that a commit publishes has the value of what was held at its route, or none, and is held itself if and only if something was |
| `ShareNames.NamesStayUnambiguous` | seamless_workflow/attachments/share/server.py:236-298 | over every run no top-level share has the name of a namespace, no reservation in the making claims what another does, nor a URL below a top-level share, but for a claim that supplants the other |
| `ShareNames.ReservesByRight` | seamless_workflow/attachments/share/server.py:236-245 | a URL is reserved only in a namespace that is new, its owner's, or vacant: without an active owner, and its hold not over |
| `ShareNames.CommitTakesByRight` | seamless_workflow/attachments/share/server.py:405-424 | a commit, also one that then fails, hands a namespace only to the owner of one of its reservations in it, and only a vacant one |
| `ShareNames.TopsStayInTheirNamespace` | seamless_workflow/attachments/share/server.py:267-276 | a commit takes a top-level route only from a share of the same namespace or from one it supplants |
| `ShareNames.ClaimsAre` | seamless_workflow/attachments/share/server.py:350-366 | a namespace that is new is claimed for reservations only if and only if the reservation that brings it is staged |
| `ShareNames.WithdrawnWithItsNamespace` | seamless_workflow/attachments/share/server.py:878-906 | a withdrawn reservation takes its namespace along if and only if that was claimed for reservations only and nothing else is in it |
| `ShareNames.CommitSettlesClaims` | seamless_workflow/attachments/share/server.py:425-457 | after a commit no namespace of the batch is claimed for reservations only |
| `ShareHolds.ExpiryClosesTheOverdue` | seamless_workflow/attachments/share/server.py:746-778 | an expiry closes exactly the namespace's shares whose hold had a deadline that has passed |
| `ShareHolds.ExpiryEndsTheNamespace` | seamless_workflow/attachments/share/server.py:746-778 | and the namespace if and only if no share of it is left, its owner is gone and the hold on it is over |
| `ShareHolds.ClosingClosesAll` | seamless_workflow/attachments/share/server.py:825-877 | an owner's namespace is closed, with all its shares, if and only if none of the owner's there is active; else nothing changes |
| `ShareHolds.HoldsBeginAndEnd` | seamless_workflow/attachments/share/server.py:707-745 | holding a namespace holds its owner's shares to the deadline and lets others in till then; reattaching ends a share's hold |
| `ShareFailures.MovingToTheTopOrphans` | seamless_workflow/attachments/share/server.py:368-389 | a run of three steps after which the record table misses an open share |
| `ShareFailures.CommitFindsNamespaceGone` | seamless_workflow/attachments/share/server.py:418-424 | a run from the empty registry after which a commit fails for a namespace that lapsed, and has by then given another namespace of the batch to a new owner |
| `ShareFailures.GoneCommitLeavesAllIff` | seamless_workflow/attachments/share/server.py:418-424 | a commit that finds a namespace gone leaves the whole state as it was if and only if no reservation before that one takes a namespace over |
| `MountSessions.MountSession.Observe` | seamless_workflow/attachments/runtime.py:206-250 | an observation is classified, sensed, canonicalized or reasserted, and the session stays disciplined |
| `MountSessions.MountSession.Ask` | seamless_workflow/attachments/runtime.py:252-261 | a request replaces the delivery that waits |
| `MountSessions.MountSession.SendPending` | seamless_workflow/attachments/runtime.py:263-286 | a dispatch drops an equivalent delivery, waits for the interval, or sends with the fingerprint last read |
| `MountSessions.MountSession.Acknowledge` | seamless_workflow/attachments/runtime.py:341-378 | an acknowledgement settles the delivery it names, and no other |
| `MountSessions.MountSession.EndTurn` | seamless_workflow/attachments/runtime.py:288-300 | an edited node is requested once, then dispatched |
| `MountSessions.MountSession.ClearError` | seamless_workflow/attachments/runtime.py:447-462 | the session is active again and asks for the node's value |
| `MountSessions.MountSession.Close` | seamless_workflow/attachments/runtime.py:464-478 | a detached session holds no lease |
| `MountSessions.AttachingIsDisciplined` | seamless_workflow/attachments/runtime.py:120-173 | an attachment starts disciplined, at the version it observed, whatever its initial action and whichever leases are refused; what waits has its lease unless the last request was refused over it |
| `MountSessions.StepKeeps` | seamless_workflow/attachments/runtime.py:195-286 | each step keeps the discipline; a delivery loses its lease if and only if a request over it is refused |
| `MountSessions.RefusedEditDeprives` | seamless_workflow/attachments/runtime.py:252-261 | an attached session, two edits of which the second is refused its lease: the first waits, and then leaves, without one |
| `MountSessions.EveryRunIsDisciplined` | seamless_workflow/attachments/runtime.py:195-378 | over every run at most one delivery waits and one is out, the one out asked for first; dispatches leave in order, two thirds of a second apart; no lease outlives its delivery; what was processed never goes back |
| `MountSessions.DetectorSeesTheWholeWindow` | seamless_workflow/attachments/runtime.py:239-248 | over every run of a session, though old reasserts are forgotten, a reassert trips exactly when it is the third within twenty seconds since the error was last cleared |
| `MountPolicies.AttachingReconciles` | seamless_workflow/attachments/policy.py:6-23 | an attachment reports an error if and only if a required file is missing or an invalid one would count; else node and resource are to share one value: the node's where it counts, the resource's, or null; what waits is that value, and it waits exactly where it has to be written |
| `MountPolicies.ObservationIsNoted` | seamless_workflow/attachments/runtime.py:206-216 | an observation that is not newer than what was processed changes nothing; any other is taken note of |
| `MountPolicies.ReadingTakesIn` | seamless_workflow/attachments/runtime.py:206-235 | an observation is taken into the node if and only if it is newer and another's new value, or one still there after an error, and the node may be written; its own delivery is not; what waited goes |
| `MountPolicies.CanonicalIsRewritten` | seamless_workflow/attachments/runtime.py:228-232 | a resource that is not canonical is given the value taken in, or the node's where nothing is new |
| `MountPolicies.WritingReasserts` | seamless_workflow/attachments/runtime.py:236-248 | a session that only writes asks for the node's value again if and only if another changed the resource, and trips at the third time in the window |
| `MountPolicies.AcknowledgedSettles` | seamless_workflow/attachments/runtime.py:341-366 | a written delivery is taken note of if newer; a failed one waits again for a delay that doubles to a minute, unless another waits; a conflicting one is dropped |
| `MountPolicies.DispatchSends` | seamless_workflow/attachments/runtime.py:263-286 | what leaves is what waited, if and only if nothing is out, retry and interval are over, and it is forced or a change |
| `MountPolicies.ClosingFlushes` | seamless_workflow/attachments/runtime.py:380-402 | a closing Context dispatches what waits of a persistent session without an error, and nothing else |
| `MountPolicies.ClearingAsks` | seamless_workflow/attachments/runtime.py:447-462 | a cleared session is active, without an error, and asks for the node's value if it may write it |
| `DeliveredValues.EveryDeliveryWasAskedFor` | seamless_workflow/attachments/runtime.py:252-286 | over every run each delivery that waits, is out or has left carries the value asked for at the step that gave it its number: the node's, or what was observed for a canonical rewrite |
| `DeliveredValues.EditIsDelivered` | seamless_workflow/attachments/runtime.py:288-300 | a granted edit whose value is not on disk leaves a delivery of exactly the node's value, waiting or out, and none but it waiting, unless it is a null that needs none |
| `DeliveredValues.OutdatesIff` | seamless_workflow/attachments/runtime.py:252-300 | what waits stays what was last asked for or taken note of, but for a refused edit over it, an edit back to the value on disk, and a failed delivery that comes back |
| `DeliveredValues.EditBackLeavesADelivery` | seamless_workflow/attachments/runtime.py:288-300 | a session whose node is back at the value on disk and whose delivery of another leaves |
| `SessionProtocol.StepReads` | seamless_workflow/attachments/runtime.py:341-352 | a step reads at most the version of its message, and a delivery it sends expects the version then read |
| `SessionProtocol.EveryRunIsConsistent` | seamless_workflow/attachments/share/server.py:604-624 | versions have distinct fingerprints, messages report versions that were, and a session has read one of them, over every delay, reordering and repetition |
| `SessionProtocol.NoBlindOverwrite` | seamless_workflow/attachments/share/server.py:604-624 | a delivery is installed only over the version its session had read when sending it, so every client write accepted before had been processed or superseded; it replaces the content the session knew if and only if something had been written before or no value was taken over |
| `SessionProtocol.AdoptedValueIsOverwritten` | seamless_workflow/attachments/share/server.py:591-625 | a share that took over a held value whose session delivers over it, taking it to be absent |
| `SessionProtocol.UnseenWriteConflicts` | seamless_workflow/attachments/share/server.py:602-603 | a write the session had not read makes the delivery a conflict that changes nothing |
| `ShareHistories.EveryRunIsTogether` | seamless_workflow/attachments/share/server.py:591-625 | over every run of the registry and a session together the share has the value, fingerprint and number of the last version of the protocol's history, and the protocol's side of it is a run of the protocol |
| `ShareHistories.PublishedTogether` | seamless_workflow/attachments/share/server.py:300-325 | a share that was just published, with what it took over, is where a run of the protocol starts |
| `ShareHistories.InstalledOverWhatWasRead` | seamless_workflow/attachments/share/server.py:591-625 | the registry installs a session's delivery only over the very version the session had read when it sent it |
| `CutBarriers.SyncPredicate.Start` | seamless_workflow/attachments/runtime.py:39-45 | asks each attached session, once, for a cut with a number no barrier has used |
| `CutBarriers.SyncPredicate.CheckOn` | seamless_workflow/attachments/runtime.py:21-37 | restarts, waits or is ready, in the order of the tests |
| `CutBarriers.SyncPredicate.Discharge` | seamless_workflow/attachments/runtime.py:404-410 | an answer counts for the barrier that asked for that cut |
| `CutBarriers.EveryRunIsSound` | seamless_workflow/attachments/runtime.py:15-45 | over every run, who no longer owes an answer has given one or is gone, cuts are distinct, and every stir is counted |
| `CutBarriers.RestartsIff` | seamless_workflow/attachments/runtime.py:21-37 | a barrier asks anew if and only if it never asked, or all that it waits for is over but something has stirred since |
| `CutBarriers.ReadyMeansSettled` | seamless_workflow/attachments/runtime.py:21-37 | a barrier is ready if and only if every session asked and still attached has answered that cut, the graph is quiet, nothing is out, what waits waits on a recorded error, and nothing has stirred since the start |
| `CutBarriers.AnswersAreForOneCut` | seamless_workflow/attachments/runtime.py:404-410 | an answer to another cut, earlier or of another barrier, changes nothing |
| `SerialQueue.Service.Submit` | seamless_workflow/attachments/fs/service.py:96-103 | a task goes to the pool, or behind the registration's task in flight |
| `SerialQueue.Service.Take` | seamless_workflow/attachments/fs/service.py:78-84 | a worker takes the oldest task of the shared queue |
| `SerialQueue.Service.Finish` | seamless_workflow/attachments/fs/service.py:84-94 | the registration's next task follows, or it is no longer busy |
| `SerialQueue.EveryRunIsSound` | seamless_workflow/attachments/fs/service.py:78-103 | each busy registration has one task, queued once or with one worker, over every interleaving |
| `SerialQueue.TasksRunInSubmissionOrder` | seamless_workflow/attachments/fs/service.py:78-103 | with any number of workers a registration has at most one task queued or running, and finished, in flight and parked tasks are together, in order, what was submitted |

## Left out

- Filesystem, inotify, sockets, WebSocket and HTTP rendering, OpenAPI, MIME types, Jupyter and the browser client.
- The external libraries (`Expression`, `Buffer`, `Checksum`, conversion tables, `CellJoin`, transformation execution, path printing): abstract, as said above. Preserving conversions are taken to be total.
- Threads and asyncio: a turn, a locked section or a worker's transition is one step.
- Eventual agreement of a resource with its node: a node that returns to the recorded disk value asks for nothing (`DeliveredValues.EditBackLeavesADelivery`), and a conflict drops its delivery.
- `_copy_subcontext`, which appends edges without the cycle check.
- Nodes nested under another node's path: node paths are taken to be prefix-free, so an edge's ends are a node and a path.
- `_build_conversion_expression` slices from the end for negative positions, unlike `anonymous_links`; only the latter is modelled.
- Derivation: the static wiring verdict of an edge is a parameter (`Wiring`), as are the fused runs of its recipe, which `EdgeRuns.SourceRuns` makes; scratch and materialization, cells rooted in an Expression and compiled transformers' schema checks are not modelled. A join whose parts do not fit is an error fact.
- Derivation: in `DerivedGraphs` and `DerivedCauses` the facts of transformer executions are purged like all others; how long the ledger really keeps them is modelled in `RunLedger`, and `Engine` takes them from there.
- The run ledger: cells' own runs only take generations; the number `prune` reports and the superseded reference counts are not modelled; a closing Context, which drops completions, neither.
- Symbols: a symbol is a base number and a suffix, not its text.
- Share server: `reserve` without an owner, `close_namespace=True`, `_release_namespace` and closing the server; unsafe and reserved path segments, which are rejected before the modelled section; checksum leases and reattach futures. Registrations are rows keyed by identity, not objects, so aliasing between them is not captured. A top-level path has one segment, so the branches for longer ones never apply.
- Share server: the orders in which expiry and closing walk their registrations are parameters.
- Sessions: the `initial` future, leaf leases, wake-up timers, event logs, and the written pair of the status report.
- Cut barriers: that a transport polls before it answers a cut.
- Engine: a ledger's own steps (an execution ends or dies, a hold expires or is pruned) are taken apart from the turn that follows them.
- Dag.Graph.AddEdge: the path below a target is a sequence of numbers, of at most one component as the callers see to; which of its names are reserved, and the celltype checks before the call, are not modelled.
- Dag.Graph.DeleteSubtree: the nodes below the deleted path are a parameter.
- SaveReload.ReloadAgrees: is about `edge_miswiring`; of the evaluator's own tests of the wiring (context.py:2366-2432) only the first is compared, in `RetypedReload.RefusalDiffersIff`.
- DerivedCauses.WaitingNodesHaveJobs: of the derivation alone; joined with the ledger's runs in `Engine.WaitingNodesHaveWork`.
- DerivedCauses.NoJobsMeansQuiet: of the derivation alone; joined with the ledger's runs in `Engine.NothingLeftMeansQuiet`.
- ReloadedCells.ReloadedCellIff: is about an edge into a whole cell that is not also fed below, no recorded link of which is ill-formed; of the static tests of the wiring only the comparison of celltypes at a path is in it, not those of a deep recipe. An Expression that is refused when it is built evaluates to nothing.
- BlockedRuns.GraphBlockedIff: for a source that still works only one direction is stated of graphs, in `BlockedRuns.BlockedStaysOverTurns`: whether it can get a value at all depends on what feeds it.
- ShareServers.ShareServer.ReserveUrl: soundness is not promised of a reservation at once with `replaces`.
- Deriver.Context.DeriveLinked: the wiring tests are a parameter of the edge; the read through a chain is `Deriver.Context.FusedProjectionSource`.
- TransformerInputs.TransformerRuns: values are taken to be in canonical form, and a pin's celltypes at both ends are parameters.
- Deriver.Context.SourceState: the static wiring verdict is a parameter of the edge.
- Deriver.Context.DeriveTransformer: compiled transformers' schema checks are not modelled.
- RunLedger.ContextRuntime.TransformationFinished: derives the named node only; `Engine` derives every node.
