/** The barrier behind `sync`: it asks every attached session for a cut, waits for the answers to
    that very cut, and resolves only when nothing has stirred since it asked. */
module CutBarriers {
  import opened Wrappers
  import opened MountSessions

  type Id = string

  /** A barrier and its history: whom it `asked` at its last start, who `answered` that cut since,
      and how often each session had stirred when it started. */
  datatype Barrier = Barrier(cut: nat, waiting: Option<set<Id>>, activity: int,
                             asked: map<Id, nat>, answered: set<Id>)

  /** The part of the Context the barriers look at. `quiet` says that no node is waiting or
      computing; `used` holds every session id ever given out. */
  datatype State = State(sessions: map<Id, Session>, quiet: bool, cuts: nat, activity: nat, used: set<Id>,
                         barriers: map<nat, Barrier>)

  const NEW_BARRIER := Barrier(0, None, -1, map[], {})

  function StirsOf(sessions: map<Id, Session>): map<Id, nat> {
    map i | i in sessions :: sessions[i].stirs
  }

  predicate Settling(s: Session) {
    s.out.inFlight.Some? || (s.out.pending.Some? && (!s.error || s.retryAt == 0.0))
  }

  function Started(c: State): Barrier {
    Barrier(c.cuts + 1, Some(c.sessions.Keys), c.activity, StirsOf(c.sessions), {})
  }

  function Trimmed(b: Barrier, c: State): Barrier {
    if b.waiting.None? then b else b.(waiting := Some(b.waiting.value * c.sessions.Keys))
  }

  datatype Verdict = Restart | Wait | Ready

  function Check(b: Barrier, c: State): Verdict {
    if b.waiting.None? then Restart
    else if b.waiting.value * c.sessions.Keys != {} then Wait
    else if !c.quiet then Wait
    else if exists i :: i in c.sessions && Settling(c.sessions[i]) then Wait
    else if b.activity != c.activity then Restart
    else Ready
  }

  function Discharged(b: Barrier, id: Id, cut: nat): Barrier {
    if b.cut != cut || b.waiting.None? then b
    else b.(waiting := Some(b.waiting.value - {id}), answered := b.answered + {id})
  }

  /** A barrier asks anew exactly if it has never asked, or if everyone has answered or is gone, the graph
      is quiet and nothing is out, but something has stirred since it asked. */
  lemma RestartsIff(b: Barrier, c: State)
    ensures Check(b, c) == Restart <==>
      || b.waiting.None?
      || (&& (forall i :: i in b.waiting.value ==> i !in c.sessions) && c.quiet
          && (forall i :: i in c.sessions ==> !Settling(c.sessions[i])) && b.activity != c.activity)
  {
    if b.waiting.Some? {
      var owing := b.waiting.value * c.sessions.Keys;
      assert forall i :: i in owing <==> i in b.waiting.value && i in c.sessions;
      if owing != {} {
        var i :| i in owing;
      }
    }
    hide Settling;
  }

  // ----- the Context's steps -----

  datatype Move =
    | Handle(id: Id, e: Event)          // a session handles a message or an internal event
    | Attach(id: Id, spec: Spec, o: Observation, node: Option<Checksum>, noValue: bool, refused: set<nat>)
    | Derive(quiet: bool)               // the graph works, or comes to rest
    | Sync(future: nat)
    | Look(future: nat)                 // the barrier is checked
    | Answer(id: Id, cut: nat)          // any answer: timely, late, repeated or made up

  predicate Possible(c: State, m: Move) {
    match m
    case Handle(i, _) => i in c.sessions
    case Attach(i, _, _, _, _, _) => i !in c.used
    case Sync(f) => f !in c.barriers
    case Look(f) => f in c.barriers
    case _ => true
  }

  function Handled(c: State, i: Id, e: Event): State
    requires i in c.sessions
  {
    var s := Step(c.sessions[i], e);
    var stirred := if s.stirs > c.sessions[i].stirs then s.stirs - c.sessions[i].stirs else 0;
    c.(sessions := if s.status.Closing? then c.sessions - {i} else c.sessions[i := s], activity := c.activity + stirred)
  }

  function Looked(c: State, f: nat): State
    requires f in c.barriers
  {
    match Check(c.barriers[f], c)
    case Restart => c.(barriers := c.barriers[f := Started(c)], cuts := c.cuts + 1)
    case Wait => c.(barriers := c.barriers[f := Trimmed(c.barriers[f], c)])
    case Ready => c.(barriers := c.barriers - {f})
  }

  function Next(c: State, m: Move): State
    requires Possible(c, m)
  {
    match m
    case Handle(i, e) => Handled(c, i, e)
    case Attach(i, spec, o, node, noValue, refused) =>
      var s := Attached(spec, o, node, noValue, refused);
      c.(sessions := c.sessions[i := s], used := c.used + {i}, activity := c.activity + s.stirs)
    case Derive(quiet) => c.(quiet := quiet)
    case Sync(f) => c.(barriers := c.barriers[f := NEW_BARRIER])
    case Look(f) => Looked(c, f)
    case Answer(i, cut) => c.(barriers := map f | f in c.barriers :: Discharged(c.barriers[f], i, cut))
  }

  // ----- the invariant -----

  /** Who no longer owes an answer has given one, or is gone; and each stir since the barrier
      started has been counted. */
  predicate Faithful(b: Barrier, c: State) {
    b.waiting.Some? ==>
      && 0 < b.cut <= c.cuts
      && b.waiting.value <= b.asked.Keys <= c.used
      && b.waiting.value !! b.answered
      && (forall i :: i in b.asked && i !in b.waiting.value ==> i in b.answered || i !in c.sessions)
      && b.activity <= c.activity
      && (forall i :: i in c.sessions ==>
            c.sessions[i].stirs - (if i in b.asked then b.asked[i] else 0) <= c.activity - b.activity)
      && (forall i :: i in c.sessions && i in b.asked ==> b.asked[i] <= c.sessions[i].stirs)
  }

  predicate Sound(c: State) {
    && c.sessions.Keys <= c.used
    && (forall f :: f in c.barriers ==> Faithful(c.barriers[f], c))
    && (forall f, g :: f in c.barriers && g in c.barriers && f != g && c.barriers[f].waiting.Some? ==>
          c.barriers[f].cut != c.barriers[g].cut)
    && (forall f :: f in c.barriers && c.barriers[f].waiting.None? ==> c.barriers[f].cut == 0)
  }

  const IDLE := State(map[], true, 0, 0, {}, map[])

  lemma StirsNeverDrop(s: Session, e: Event)
    ensures s.stirs <= Step(s, e).stirs
  {
    hide Observed, AfterTurn;
    match e {
      case Observe(o, t) => ObservedStirs(s, o, t);
      case EndTurn(t) => AfterTurnStirs(s, t);
      case _ =>
    }
  }

  lemma ObservedStirs(s: Session, o: Observation, t: Turn)
    ensures s.stirs <= Observed(s, o, t).stirs
  {
  }

  lemma AfterTurnStirs(s: Session, t: Turn)
    ensures s.stirs <= AfterTurn(s, t).stirs
  {
  }

  lemma HandledIsSound(c: State, i: Id, e: Event)
    requires Sound(c) && i in c.sessions
    ensures Sound(Handled(c, i, e))
  {
    hide Step;
    StirsNeverDrop(c.sessions[i], e);
    var d := Handled(c, i, e);
    forall f | f in d.barriers ensures Faithful(d.barriers[f], d) {
      assert Faithful(c.barriers[f], c);
    }
  }

  lemma AttachIsSound(c: State, m: Move)
    requires Sound(c) && m.Attach? && Possible(c, m)
    ensures Sound(Next(c, m))
  {
    hide Attached;
    var d := Next(c, m);
    forall f | f in d.barriers ensures Faithful(d.barriers[f], d) {
      assert Faithful(c.barriers[f], c);
    }
  }

  lemma LookIsSound(c: State, f: nat)
    requires Sound(c) && f in c.barriers
    ensures Sound(Looked(c, f))
  {
    hide Settling;
  }

  lemma AnswerIsSound(c: State, i: Id, cut: nat)
    requires Sound(c)
    ensures Sound(Next(c, Answer(i, cut)))
  {
    var d := Next(c, Answer(i, cut));
    forall f | f in d.barriers ensures Faithful(d.barriers[f], d) {
      assert Faithful(c.barriers[f], c);
    }
  }

  lemma NextIsSound(c: State, m: Move)
    requires Sound(c) && Possible(c, m)
    ensures Sound(Next(c, m))
  {
    match m {
      case Handle(i, e) => HandledIsSound(c, i, e);
      case Attach(_, _, _, _, _, _) => AttachIsSound(c, m);
      case Look(f) => LookIsSound(c, f);
      case Answer(i, cut) => AnswerIsSound(c, i, cut);
      case Derive(quiet) =>
        assert forall f :: f in c.barriers && Faithful(c.barriers[f], c) ==>
          Faithful(c.barriers[f], c.(quiet := quiet));
      case Sync(f) =>
        assert forall g :: g in c.barriers ==> Faithful(c.barriers[g], c);
    }
  }

  ghost predicate Plays(c: State, moves: seq<Move>)
    decreases |moves|
  {
    moves == [] || (Possible(c, moves[0]) && Plays(Next(c, moves[0]), moves[1..]))
  }

  function Played(c: State, moves: seq<Move>): State
    requires Plays(c, moves)
    decreases |moves|
  {
    if moves == [] then c else Played(Next(c, moves[0]), moves[1..])
  }

  lemma {:induction false} EveryRunIsSound(c: State, moves: seq<Move>)
    requires Sound(c) && Plays(c, moves)
    ensures Sound(Played(c, moves))
    decreases |moves|
  {
    if moves != [] {
      NextIsSound(c, moves[0]);
      EveryRunIsSound(Next(c, moves[0]), moves[1..]);
    }
  }

  /** After any run, a barrier is ready exactly when every session that was attached at its last
      start and still is has answered that cut since, the graph is at rest, no delivery is out,
      none waits but on a recorded error, and nothing has stirred since the start: in particular
      no session still attached has sensed or requested anything. */
  lemma ReadyMeansSettled(moves: seq<Move>, f: nat)
    requires Plays(IDLE, moves) && f in Played(IDLE, moves).barriers
    ensures var c := Played(IDLE, moves);
            var b := c.barriers[f];
            && (Check(b, c) == Ready <==>
                && b.waiting.Some?
                && (forall i :: i in b.asked && i in c.sessions ==> i in b.answered)
                && c.quiet
                && (forall i :: i in c.sessions ==> c.sessions[i].out.inFlight.None?)
                && (forall i :: i in c.sessions && c.sessions[i].out.pending.Some? ==>
                      c.sessions[i].error && c.sessions[i].retryAt != 0.0)
                && b.activity == c.activity)
            && (Check(b, c) == Ready ==>
                forall i :: i in c.sessions ==> c.sessions[i].stirs == if i in b.asked then b.asked[i] else 0)
  {
    EveryRunIsSound(IDLE, moves);
    var c := Played(IDLE, moves);
    var b := c.barriers[f];
    assert Faithful(b, c);
    if b.waiting.Some? {
      OwedMeansUnanswered(b, c);
    }
    assert (exists i :: i in c.sessions && Settling(c.sessions[i])) <==>
           !((forall i :: i in c.sessions ==> c.sessions[i].out.inFlight.None?)
             && (forall i :: i in c.sessions && c.sessions[i].out.pending.Some? ==>
                   c.sessions[i].error && c.sessions[i].retryAt != 0.0));
  }

  lemma OwedMeansUnanswered(b: Barrier, c: State)
    requires b.waiting.Some? && Faithful(b, c)
    ensures b.waiting.value * c.sessions.Keys == {} <==> forall i :: i in b.asked && i in c.sessions ==> i in b.answered
  {
    if b.waiting.value * c.sessions.Keys == {} {
      forall i | i in b.asked && i in c.sessions ensures i in b.answered {
        assert i !in b.waiting.value * c.sessions.Keys;
      }
    }
  }

  /** An answer to one cut is taken by the barrier that asked for it, and by no other: an answer
      to an earlier cut, of this barrier or another, changes nothing. */
  lemma AnswersAreForOneCut(moves: seq<Move>, i: Id, cut: nat, f: nat, g: nat)
    requires Plays(IDLE, moves)
    requires var c := Played(IDLE, moves); f in c.barriers && g in c.barriers && f != g
    ensures var c := Played(IDLE, moves);
            var d := Next(c, Answer(i, cut));
            d.barriers[f] == c.barriers[f] || d.barriers[g] == c.barriers[g]
    ensures var c := Played(IDLE, moves);
            var d := Next(c, Answer(i, cut));
            c.barriers[f].cut != cut ==> d.barriers[f] == c.barriers[f]
  {
    EveryRunIsSound(IDLE, moves);
  }

  // ----- the objects -----

  class Context {
    var sessions: map<Id, Session>
    var quiet: bool
    var cuts: nat
    var activity: nat
    var requests: seq<(Id, nat)>
    ghost var used: set<Id>
    ghost var barriers: map<nat, Barrier>

    ghost function View(): State reads this {
      State(sessions, quiet, cuts, activity, used, barriers)
    }

    constructor ()
      ensures View() == IDLE && requests == []
    {
      sessions, quiet, cuts, activity, requests := map[], true, 0, 0, [];
      used, barriers := {}, map[];
    }
  }

  class SyncPredicate {
    var cut: nat
    var waiting: Option<set<Id>>
    var activity: int
    ghost var asked: map<Id, nat>
    ghost var answered: set<Id>

    ghost function View(): Barrier reads this {
      Barrier(cut, waiting, activity, asked, answered)
    }

    constructor ()
      ensures View() == NEW_BARRIER
    {
      cut, waiting, activity, asked, answered := 0, None, -1, map[], {};
    }

    /** Asks every attached session for a cut with a number no barrier has used. */
    method Start(ctx: Context)
      modifies this, ctx`cuts, ctx`requests
      ensures View() == Started(old(ctx.View())) && ctx.cuts == old(ctx.cuts) + 1 == cut
      ensures |ctx.requests| == |old(ctx.requests)| + |ctx.sessions| && old(ctx.requests) <= ctx.requests
      ensures forall i :: i in ctx.sessions <==> (i, cut) in ctx.requests[|old(ctx.requests)|..]
    {
      asked, answered := StirsOf(ctx.sessions), {};
      ctx.cuts := ctx.cuts + 1;
      cut, activity, waiting := ctx.cuts, ctx.activity, Some(ctx.sessions.Keys);
      var left := ctx.sessions.Keys;
      ghost var before := ctx.requests;
      while left != {}
        invariant left <= ctx.sessions.Keys && |ctx.requests| == |before| + |ctx.sessions| - |left|
        invariant before <= ctx.requests
        invariant forall i :: i in ctx.sessions && i !in left <==> (i, cut) in ctx.requests[|before|..]
        decreases left
        modifies ctx`requests
      {
        var i :| i in left;
        ghost var sent := ctx.requests[|before|..];
        ctx.requests := ctx.requests + [(i, cut)];
        assert ctx.requests[|before|..] == sent + [(i, cut)];
        left := left - {i};
      }
    }

    method CheckOn(ctx: Context) returns (ready: bool)
      modifies this, ctx`cuts, ctx`requests
      ensures ready <==> Check(old(View()), old(ctx.View())) == Ready
      ensures View() == match Check(old(View()), old(ctx.View()))
                        case Restart => Started(old(ctx.View()))
                        case _ => Trimmed(old(View()), old(ctx.View()))
    {
      if waiting.None? {
        Start(ctx);
        return false;
      }
      waiting := Some(waiting.value * ctx.sessions.Keys);
      if waiting.value != {} || !ctx.quiet {
        return false;
      }
      if exists i :: i in ctx.sessions && Settling(ctx.sessions[i]) {
        return false;
      }
      if activity != ctx.activity {
        Start(ctx);
        return false;
      }
      return true;
    }

    method Discharge(id: Id, number: nat)
      modifies this
      ensures View() == Discharged(old(View()), id, number)
    {
      if cut == number && waiting.Some? {
        waiting := Some(waiting.value - {id});
        answered := answered + {id};
      }
    }
  }
}
