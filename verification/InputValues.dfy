/** What an edge delivers, in terms of its recipe: what the recipe's links, one by one, make of the
    value that its source has. */
module InputValues {
  import opened Dag
  import opened Derivation
  import opened EdgeRuns
  import R = Recipes
  import F = Fusion

  /** A recipe below a source. */
  datatype Feed = Feed(source: Node, path: R.Path, steps: seq<R.Step>)

  /** What is given: lawful conversions, and facts and refusals that are as they say. */
  ghost predicate Granted(g: Wired, facts: Facts, sem: Semantics, valid: Validity) {
    F.Lawful(sem) && Lenient(valid) && Ranged(sem) && Tells(facts, sem, valid) && Honest(g, sem)
  }

  /** The edge has its recipe's runs, over the source's celltype. */
  ghost predicate FedBy(g: Wired, sem: Semantics, edge: Edge, feed: Feed) {
    && edge.source == feed.source
    && edge.runs == SourceRuns(g, sem.preserving, NodeType(g, feed.source), feed.path, feed.steps)
  }

  /** What the recipe means, link by link, over the value that its source has. */
  function Meaning(g: Wired, sem: Semantics, states: States, feed: Feed): Outcome {
    var t := NodeType(g, feed.source);
    match StateAt(states, feed.source)
    case Complete(c) => F.EvalLinks(sem, F.Got(c), t, R.AnonymousLinks(t, feed.path, feed.steps))
    case _ => F.Failed
  }

  /** The runs of a whole value's conversion from one celltype to another. */
  ghost predicate Turns(g: Wired, own: seq<Run>, t: R.Celltype, u: R.Celltype) {
    own == if t == u then [] else ProjectionRuns(g, t, [], u, 0)
  }

  // ----- following runs -----

  lemma {:induction false} ReachedIsThere(facts: Facts, c: Checksum, runs: seq<Run>)
    requires Follow(facts, c, runs).Reached?
    ensures All(facts, Followed(facts, c, runs))
    decreases |runs|
  {
    if runs != [] {
      ReachedIsThere(facts, facts[Convert(runs[0].expression, c)].checksum, runs[1..]);
    }
  }

  /** Runs are followed to the end exactly if they evaluate to a value and each fact is there. */
  lemma FollowIff(g: Wired, facts: Facts, sem: Semantics, valid: Validity, c: Checksum, runs: seq<Run>, v: Checksum)
    requires Granted(g, facts, sem, valid) && Built(g, runs)
    ensures Follow(facts, c, runs) == Reached(v) <==>
      Ran(sem, valid, F.Got(c), runs) == F.Got(v) && All(facts, Followed(facts, c, runs))
  {
    hide Ran, Built;
    if Follow(facts, c, runs).Reached? {
      ReachedIsThere(facts, c, runs);
    }
    if All(facts, Followed(facts, c, runs)) {
      FollowRan(g, facts, sem, valid, c, runs);
    }
  }

  /** The same, for the conversion of a whole value. */
  lemma TurnIff(g: Wired, facts: Facts, sem: Semantics, valid: Validity, c: Checksum, own: seq<Run>, t: R.Celltype,
      u: R.Celltype, v: Checksum)
    requires Granted(g, facts, sem, valid) && Turns(g, own, t, u)
    ensures Follow(facts, c, own) == Reached(v) <==>
      F.Convert(sem, F.Got(c), t, u) == F.Got(v) && All(facts, Followed(facts, c, own))
  {
    F.Unchanged(sem, F.Got(c), t, t);
    if t != u {
      ProjectionBuilt(g, t, [], u, 0);
      FollowIff(g, facts, sem, valid, c, own, v);
      ProjectionRan(g, sem, valid, F.Got(c), t, [], u, 0);
      ExpressionInRange(sem, F.Got(c), t, [], u);
      Unchecked(valid, F.EvalExpression(sem, F.Got(c), t, [], u));
      assert F.Project(sem, F.Got(c), t, []) == F.Got(c) && R.Projected(t, []) == t;
    }
  }

  /** An edge delivers a value exactly if it is well-formed and its recipe means that value, once each
      fact that it demands is there. */
  lemma DeliversIff(g: Wired, facts: Facts, states: States, sem: Semantics, valid: Validity, edge: Edge, feed: Feed,
      v: Checksum)
    requires Granted(g, facts, sem, valid) && FedBy(g, sem, edge, feed)
    ensures Delivers(facts, states, edge) == Ready(v) <==>
      edge.wiring.Sound? && Meaning(g, sem, states, feed) == F.Got(v) && All(facts, Looks(facts, states, edge))
  {
    var t, s := NodeType(g, feed.source), StateAt(states, feed.source);
    if s.Complete? {
      SourceBuilt(g, sem.preserving, t, feed.path, feed.steps);
      hide Ran, SourceRuns, Follow, Followed, F.EvalLinks, Granted;
      FollowIff(g, facts, sem, valid, s.checksum, edge.runs, v);
      SourceRan(g, sem, valid, F.Got(s.checksum), t, feed.path, feed.steps) by { GrantedLaws(g, facts, sem, valid); }
    }
  }

  lemma GrantedLaws(g: Wired, facts: Facts, sem: Semantics, valid: Validity)
    requires Granted(g, facts, sem, valid)
    ensures F.Lawful(sem) && Lenient(valid) && Ranged(sem)
  {
  }

  lemma {:induction false} LinksInRange(sem: Semantics, o: Outcome, t: R.Celltype, links: seq<R.Link>)
    requires Ranged(sem) && InRange(o)
    ensures InRange(F.EvalLinks(sem, o, t, links))
  {
    if links != [] {
      var init, last := links[..|links| - 1], links[|links| - 1];
      LinksInRange(sem, o, t, init);
      ExpressionInRange(sem, F.EvalLinks(sem, o, t, init), R.TypeAfter(t, init), last.path, last.celltype);
      hide F.EvalExpression;
    }
  }

  /** A well-formed edge that delivers nothing has no meaning, or a fact is missing. */
  lemma NotDelivered(g: Wired, facts: Facts, states: States, sem: Semantics, valid: Validity, edge: Edge, feed: Feed)
    requires Granted(g, facts, sem, valid) && FedBy(g, sem, edge, feed) && edge.wiring.Sound?
    requires !Delivers(facts, states, edge).Ready?
    ensures Meaning(g, sem, states, feed).Failed? || !All(facts, Looks(facts, states, edge))
  {
    var o, t := Meaning(g, sem, states, feed), NodeType(g, feed.source);
    if o.Got? {
      LinksInRange(sem, F.Got(StateAt(states, feed.source).checksum), t, R.AnonymousLinks(t, feed.path, feed.steps));
      hide Meaning, Delivers, Looks, Granted, FedBy;
      DeliversIff(g, facts, states, sem, valid, edge, feed, o.checksum);
    }
  }
}
