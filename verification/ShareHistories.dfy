/** The registry's share and the history that its session's protocol is about are one and the same:
    whatever the registry does to a published share is a move of the protocol. */
module ShareHistories {
  import opened Wrappers
  import M = MountSessions
  import P = SessionProtocol
  import S = ShareRegistry
  import K = ShareSteps
  import Q = ShareRuns
  import V = ShareValues

  function ContentOf(value: Option<S.Checksum>): M.Content {
    match value case Some(c) => M.Holds(c) case None => M.Absent
  }

  /** The published share `id` is at the last version of the protocol's history. */
  ghost predicate Together(s: S.State, id: S.Id, w: P.World) {
    && w.history != [] && id in s.regs && !s.regs[id].staged
    && var reg, last := s.regs[id], w.history[P.Ws(w)];
       && reg.ws == P.Ws(w) && reg.fingerprint == last.fingerprint && ContentOf(reg.checksum) == last.content
       && w.active == reg.active && w.closed == reg.closed && w.prints == s.prints
  }

  /** A step of the two together: one of the registry that is not a delivery to the share, the delivery
      of what the session dispatched as `index`, or one of the session. */
  datatype Step = Serves(event: Q.Event) | Executes(index: nat) | Handles(e: M.Event)

  datatype Both = Both(registry: S.State, world: P.World)

  ghost predicate Possible(b: Both, id: S.Id, step: Step) {
    match step
    case Serves(e) => Q.Possible(b.registry, e) && !(e.Delivering? && e.id == id)
    case Executes(i) => i < |b.world.session.out.sends|
    case Handles(e) => P.Possible(b.world, P.Turned(e))
  }

  /** The registry's own step. */
  function Event(b: Both, id: S.Id, step: Step): Option<Q.Event> {
    match step
    case Serves(e) => Some(e)
    case Executes(i) =>
      if i < |b.world.session.out.sends| then
        var d := b.world.session.out.sends[i].delivery;
        Some(Q.Delivering(id, Some(d.checksum), d.expected))
      else None
    case Handles(_) => None
  }

  /** What became of the share, seen from outside: it is closed, held or activated. */
  function Switched(before: S.Registration, after: S.Registration): Option<P.Move> {
    if after.closed && !before.closed then Some(P.Close)
    else if after.active && !before.active then Some(P.Activate)
    else if !after.active && before.active then Some(P.Hold)
    else None
  }

  /** The protocol's move. A write that is accepted is a version more of the share, or takes a
      fingerprint elsewhere; one that is not accepted is nothing. */
  function Move(b: Both, id: S.Id, step: Step): Option<P.Move>
    requires id in b.registry.regs
  {
    match step
    case Handles(e) => Some(P.Turned(e))
    case Executes(i) => Some(P.Deliver(i))
    case Serves(e) =>
      var after := Q.Next(b.registry, e);
      match e
      case Putting(x, c, expected) =>
        if after.prints == b.registry.prints then None else Some(if x == id then P.Put(c) else P.Elsewhere)
      case Delivering(x, value, expected) => if after.prints == b.registry.prints then None else Some(P.Elsewhere)
      case _ => if id in after.regs then Switched(b.registry.regs[id], after.regs[id]) else None
  }

  function Next(b: Both, id: S.Id, step: Step): Both
    requires b.world.history != [] && id in b.registry.regs
    requires Move(b, id, step).Some? ==> P.Possible(b.world, Move(b, id, step).value)
  {
    var e, m := Event(b, id, step), Move(b, id, step);
    Both(if e.Some? then Q.Next(b.registry, e.value) else b.registry,
         if m.Some? then P.Next(b.world, m.value) else b.world)
  }

  // ----- rows that stay -----

  ghost predicate RowStays(s: S.State, after: S.State, id: S.Id) {
    && id in s.regs && id in after.regs && after.prints == s.prints && V.SameValue(s.regs[id], after.regs[id])
    && !after.regs[id].staged
  }

  lemma QuietRow(s: S.State, e: Q.Event, id: S.Id)
    requires S.Sound(s) && Q.Possible(s, e) && id in s.regs && !s.regs[id].staged && !e.Putting? && !e.Delivering?
    ensures RowStays(s, Q.Next(s, e), id)
  {
    var v := map x | x in s.regs :: s.regs[x].checksum;
    assert V.Stocked(v, s);
    hide S.Sound, S.Reserve, S.Commit, S.Remove, S.Expire, S.CloseNamespace, S.Activated, S.Reattached, S.HoldOne,
      S.BeginClose, S.HoldNamespace, V.Stocked;
    match e {
      case Reserving(a, now) => V.ReserveStocks(v, s, a, now);
      case Committing(batch, now) => V.CommitStocks(v, s, batch, now);
      case Unregistering(x) => V.RemoveSameValues(s, x);
      case Expiring(ns, now, order) => V.ExpireSameValues(s, ns, now, order);
      case Closing(ns, owner, order) => V.CloseSameValues(s, ns, owner, order);
      case _ => V.QuietSameValues(s, e);
    }
  }

  // ----- one step -----

  lemma ActiveIsNotClosed(s: S.State, id: S.Id)
    requires S.Sound(s) && id in s.regs && s.regs[id].active
    ensures !s.regs[id].closed
  {
    Q.ActiveIsOpen(s, id);
    hide S.Sound;
  }

  lemma SwitchedTogether(s: S.State, after: S.State, id: S.Id, w: P.World)
    requires Together(s, id, w) && RowStays(s, after, id)
    requires s.regs[id].active ==> !s.regs[id].closed
    requires after.regs[id].active ==> !after.regs[id].closed
    requires s.regs[id].closed ==> after.regs[id].closed
    ensures var m := Switched(s.regs[id], after.regs[id]);
            && (m.Some? ==> P.Possible(w, m.value))
            && Together(after, id, if m.Some? then P.Next(w, m.value) else w)
  {
  }

  lemma WroteRow(s: S.State, id: S.Id, value: Option<S.Checksum>)
    requires id in s.regs
    ensures var after, reg := S.Wrote(s, id, value), s.regs[id];
            && id in after.regs && after.prints == s.prints + 1
            && after.regs[id].ws == reg.ws + 1 && after.regs[id].fingerprint == Some(s.prints + 1)
            && after.regs[id].checksum == value && after.regs[id].staged == reg.staged
            && after.regs[id].active == reg.active && after.regs[id].closed == reg.closed
  {
    K.WroteShape(s, id, value);
    WroteCounts(s, id, value);
    hide S.Wrote;
  }

  lemma WroteCounts(s: S.State, id: S.Id, value: Option<S.Checksum>)
    requires id in s.regs
    ensures var after, reg := S.Wrote(s, id, value), s.regs[id];
            && id in after.regs && after.prints == s.prints + 1
            && after.regs[id].ws == reg.ws + 1 && after.regs[id].fingerprint == Some(s.prints + 1)
  {
    hide S.Noted, S.RouteOf;
    if s.regs[id].checksum == value {
    } else {
    }
  }

  lemma WroteElsewhere(s: S.State, x: S.Id, id: S.Id, value: Option<S.Checksum>)
    requires x in s.regs && id in s.regs && x != id
    ensures var after := S.Wrote(s, x, value);
            id in after.regs && after.regs[id] == s.regs[id] && after.prints == s.prints + 1
  {
  }

  /** A write to the share is accepted exactly if the protocol's share takes it, and then both have the
      same new version. */
  lemma PutTogether(s: S.State, x: S.Id, c: S.Checksum, expected: Option<nat>, id: S.Id, w: P.World)
    requires Together(s, id, w) && (s.regs[id].active ==> !s.regs[id].closed)
    ensures var after := Q.Next(s, Q.Putting(x, c, expected));
            if after.prints == s.prints then after == s
            else if x == id then P.Possible(w, P.Put(c)) && Together(after, id, P.Next(w, P.Put(c)))
            else Together(after, id, P.Next(w, P.Elsewhere))
  {
    if S.Put(s, x, c, expected).Installed? {
      if x == id {
        WroteRow(s, id, Some(c));
      } else {
        WroteElsewhere(s, x, id, Some(c));
      }
    }
    hide S.Wrote;
  }

  lemma DeliverElsewhere(s: S.State, x: S.Id, value: Option<S.Checksum>, expected: Option<nat>, id: S.Id, w: P.World)
    requires Together(s, id, w) && x != id
    ensures var after := Q.Next(s, Q.Delivering(x, value, expected));
            if after.prints == s.prints then after == s else Together(after, id, P.Next(w, P.Elsewhere))
  {
    if S.Deliver(s, x, value, expected).Installed? {
      WroteElsewhere(s, x, id, value);
    }
    hide S.Wrote;
  }

  /** The registry installs a dispatched delivery exactly if the protocol does. */
  lemma ExecutedTogether(s: S.State, id: S.Id, w: P.World, i: nat)
    requires Together(s, id, w) && i < |w.session.out.sends|
    ensures var d := w.session.out.sends[i].delivery;
            var after := Q.Next(s, Q.Delivering(id, Some(d.checksum), d.expected));
            && Together(after, id, P.Next(w, P.Deliver(i)))
            && (S.Deliver(s, id, Some(d.checksum), d.expected).Installed? <==>
                  |P.Next(w, P.Deliver(i)).installs| == |w.installs| + 1)
  {
    var d := w.session.out.sends[i].delivery;
    if S.Deliver(s, id, Some(d.checksum), d.expected).Installed? {
      WroteRow(s, id, Some(d.checksum));
    }
    hide S.Wrote;
  }

  lemma HandledTogether(s: S.State, id: S.Id, w: P.World, e: M.Event)
    requires Together(s, id, w) && P.Possible(w, P.Turned(e))
    ensures Together(s, id, P.Next(w, P.Turned(e)))
  {
    hide M.Step;
  }

  lemma StepTogether(b: Both, id: S.Id, step: Step)
    requires S.Sound(b.registry) && Together(b.registry, id, b.world) && Possible(b, id, step)
    ensures Move(b, id, step).Some? ==> P.Possible(b.world, Move(b, id, step).value)
    ensures S.Sound(Next(b, id, step).registry) && Together(Next(b, id, step).registry, id, Next(b, id, step).world)
  {
    var s, w := b.registry, b.world;
    if s.regs[id].active {
      ActiveIsNotClosed(s, id);
    }
    hide S.Sound, Together, P.Next, P.Possible, Q.Next, Q.Possible;
    if Event(b, id, step).Some? {
      Q.NextIsSound(s, Event(b, id, step).value) by {
        assert Q.Possible(s, Event(b, id, step).value);
      }
    }
    match step {
      case Handles(e) => HandledTogether(s, id, w, e);
      case Executes(i) => ExecutedTogether(s, id, w, i);
      case Serves(e) =>
        match e {
          case Putting(x, c, expected) => PutTogether(s, x, c, expected, id, w);
          case Delivering(x, value, expected) => DeliverElsewhere(s, x, value, expected, id, w);
          case _ => QuietTogether(s, e, id, w);
        }
    }
  }

  lemma QuietTogether(s: S.State, e: Q.Event, id: S.Id, w: P.World)
    requires S.Sound(s) && S.Sound(Q.Next(s, e)) && Together(s, id, w) && Q.Possible(s, e)
    requires !e.Putting? && !e.Delivering?
    ensures id in Q.Next(s, e).regs
    ensures var m := Switched(s.regs[id], Q.Next(s, e).regs[id]);
            (m.Some? ==> P.Possible(w, m.value))
              && Together(Q.Next(s, e), id, if m.Some? then P.Next(w, m.value) else w)
  {
    var after := Q.Next(s, e);
    hide S.Sound, P.Next, P.Possible, Q.Next, Q.Possible;
    QuietRow(s, e, id);
    if s.regs[id].active {
      ActiveIsNotClosed(s, id);
    }
    if after.regs[id].active {
      ActiveIsNotClosed(after, id);
    }
    SwitchedTogether(s, after, id, w);
  }

  // ----- every run -----

  ghost predicate Plays(b: Both, id: S.Id, steps: seq<Step>)
    requires S.Sound(b.registry) && Together(b.registry, id, b.world)
    decreases |steps|
  {
    steps == [] ||
    (Possible(b, id, steps[0]) &&
     (StepTogether(b, id, steps[0]);
      Plays(Next(b, id, steps[0]), id, steps[1..])))
  }

  ghost function Played(b: Both, id: S.Id, steps: seq<Step>): Both
    requires S.Sound(b.registry) && Together(b.registry, id, b.world) && Plays(b, id, steps)
    decreases |steps|
  {
    if steps == [] then b
    else
      StepTogether(b, id, steps[0]);
      Played(Next(b, id, steps[0]), id, steps[1..])
  }

  /** Over every run of the registry and the session together, the share serves the last version of the
      history that the protocol's theorems are about; and the protocol's side of the run is one of its
      own runs. */
  lemma {:induction false} EveryRunIsTogether(b: Both, id: S.Id, steps: seq<Step>) returns (moves: seq<P.Move>)
    requires S.Sound(b.registry) && Together(b.registry, id, b.world) && Plays(b, id, steps)
    ensures var end := Played(b, id, steps);
            && S.Sound(end.registry) && Together(end.registry, id, end.world)
            && P.Plays(b.world, moves) && end.world == P.Played(b.world, moves)
    decreases |steps|
  {
    if steps == [] {
      moves := [];
    } else {
      StepTogether(b, id, steps[0]);
      var rest := EveryRunIsTogether(Next(b, id, steps[0]), id, steps[1..]);
      var m := Move(b, id, steps[0]);
      hide Move, S.Sound, P.Next, P.Possible, Possible, Q.Next;
      if m.Some? {
        moves := [m.value] + rest;
        assert moves[0] == m.value && moves[1..] == rest;
      } else {
        moves := rest;
      }
    }
  }

  /** A share that has just been published, with the value it took over or none, and a session that
      begins to attend to it. */
  lemma PublishedTogether(s: S.State, id: S.Id, spec: M.Spec, node: Option<M.Checksum>, refused: set<nat>)
    requires S.Sound(s) && S.Open(s, id) && !s.regs[id].active && s.regs[id].ws == 0 && s.regs[id].fingerprint.None?
    ensures Together(s, id, P.Start(spec, node, ContentOf(s.regs[id].checksum), s.prints, refused))
  {
    hide S.Sound, M.Attached;
  }

  /** The registry installs a delivery only over the very version that the session had read when it sent
      it, whatever clients have written, to whichever share, in the meantime. */
  lemma InstalledOverWhatWasRead(s: S.State, id: S.Id, spec: M.Spec, node: Option<M.Checksum>, refused: set<nat>,
      steps: seq<Step>, i: nat)
    requires S.Sound(s) && S.Open(s, id) && !s.regs[id].active && s.regs[id].ws == 0 && s.regs[id].fingerprint.None?
    requires var start := Both(s, P.Start(spec, node, ContentOf(s.regs[id].checksum), s.prints, refused));
             Together(s, id, start.world) && Plays(start, id, steps)
    requires var start := Both(s, P.Start(spec, node, ContentOf(s.regs[id].checksum), s.prints, refused));
             var end := Played(start, id, steps);
             && i < |end.world.session.out.sends|
             && var d := end.world.session.out.sends[i].delivery;
                S.Deliver(end.registry, id, Some(d.checksum), d.expected).Installed?
    ensures var start := Both(s, P.Start(spec, node, ContentOf(s.regs[id].checksum), s.prints, refused));
            var end := Played(start, id, steps);
            i < |end.world.bases| && id in end.registry.regs
              && end.world.bases[i].processed == end.registry.regs[id].ws
  {
    var start := Both(s, P.Start(spec, node, ContentOf(s.regs[id].checksum), s.prints, refused));
    var end := Played(start, id, steps);
    var moves := EveryRunIsTogether(start, id, steps);
    P.StartIsConsistent(spec, node, ContentOf(s.regs[id].checksum), s.prints, refused);
    hide S.Sound, Plays, Played, P.Start, P.Played, P.Plays;
    P.EveryRunIsConsistent(start.world, moves);
    var w := end.world;
    assert P.Based(w, i);
    P.FingerprintNamesTheVersion(w.history, w.prints, w.bases[i].processed);
  }
}
