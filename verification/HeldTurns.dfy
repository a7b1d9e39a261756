/** A turn holds the run that it supersedes for the longer time exactly if a source of its node works. */
module HeldTurns {
  import opened Dag
  import opened Derivation
  import opened DerivedCauses
  import opened Engine
  import L = RunLedger
  import H = RunHolds

  /** The transformer lacks an input, or wants another execution than the one that runs for it. */
  predicate WantsAnother(facts: Facts, states: States, n: Node, body: Body, r: L.Record)
    requires body.Transformer?
  {
    || Worst(facts, states, [CodePin(body.code)] + body.pins).Lacks?
    || ExecuteKey(facts, states, n, body.code, body.pins, body.config) != r.key
  }

  /** A source waits or computes. */
  predicate SourceWorks(states: States, body: Body) {
    exists m :: m in Sources(body) && (StateAt(states, m).Waiting? || StateAt(states, m).Computing?)
  }

  /** The superseded run is not asked to stop by the turn. An expiry takes it thirty seconds later at the
      earliest; but three hundred, if a source of its node was at work when the node was derived. */
  lemma TurnHoldsTheSuperseded(g: Wired, facts: Facts, w: Work, n: Node, need: Need, now: real, later: real)
    requires n in g.nodes && g.nodes[n].Transformer? && L.Kept(w.ledger) && n in w.ledger.current
    requires WantsAnother(facts, w.states, n, g.nodes[n], w.ledger.current[n])
    ensures var r, after := w.ledger.current[n], NodeStep(g, facts, w, n, need, now).ledger;
            && r.generation !in after.log.stopped
            && (r.generation in L.Expire(after, n, r.generation, later).log.stopped <==>
                  now + (if SourceWorks(w.states, g.nodes[n]) then 300.0 else 30.0) <= later)
  {
    var body, r := g.nodes[n], w.ledger.current[n];
    var d := DemandOf(facts, w.states, n, body, need);
    var after := L.Derive(w.ledger, n, d, now);
    UnresolvedIs(w.states, body);
    assert d.unresolved <==> SourceWorks(w.states, body);
    assert NodeStep(g, facts, w, n, need, now).ledger == after;
    hide Worst, ExecuteKey, SourceWorks, Unresolved, NodeStep, L.Derive, L.Expire;
    H.SupersededIsHeld(w.ledger, n, d, now);
    L.DeriveAt(w.ledger, n, d, now);
    H.ExpiresIff(after, n, r.generation, r.key, if d.unresolved then L.Upstream else L.SelfEdit,
      now + if d.unresolved then 300.0 else 30.0, 0, later);
  }

  lemma UnresolvedIs(states: States, body: Body)
    ensures Unresolved(states, body) <==> SourceWorks(states, body)
  {
    if Unresolved(states, body) {
      var e :| e in EdgesOf(body) && Works(StateAt(states, e.source));
      assert e.source in Sources(body);
    }
  }
}
