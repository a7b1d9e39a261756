/** A session and the share registration it is attached to, over a transport that delays,
    reorders and repeats messages. Whatever a delivery replaces, the session had already taken
    note of every client write before it, when it sent that delivery. */
module SessionProtocol {
  import opened Wrappers
  import opened MountSessions

  /** One state of the registration: its fingerprint and the checksum it publishes. */
  datatype Version = Version(fingerprint: Fingerprint, content: Content)

  datatype Message = Noticed(o: Observation) | Replied(a: Ack)

  /** What the session knew when it dispatched a delivery. */
  datatype Basis = Basis(processed: nat, disk: Content)

  /** `index` is the dispatch that was installed, `over` the ws of the version it replaced, and
      `earlier` the client writes accepted before. */
  datatype Install = Install(index: nat, over: nat, earlier: set<nat>)

  /** `history[k]` is the version with ws `k`; the registration is at the last. `prints` is the
      server-wide fingerprint counter; `written` holds the ws of each accepted client write;
      `bases` goes with the session's dispatches; `mail` keeps every message, for good. */
  datatype World = World(session: Session, active: bool, closed: bool, history: seq<Version>, prints: nat,
                         mail: set<Message>, bases: seq<Basis>, written: set<nat>, installs: seq<Install>)

  datatype Move =
    | Turned(e: Event)              // the session handles a message or an internal event
    | Put(checksum: Checksum)       // a client's write is accepted
    | Deliver(index: nat)           // the server executes a delivery the session dispatched
    | Elsewhere                     // another registration takes a fingerprint
    | Activate
    | Hold                          // the share is held, and takes nothing for a while
    | Close

  function Ws(w: World): nat
    requires w.history != []
  {
    |w.history| - 1
  }

  predicate Possible(w: World, m: Move) {
    match m
    case Turned(Observe(o, _)) => Noticed(o) in w.mail
    case Turned(Acknowledge(a, _, _)) => Replied(a) in w.mail
    case Turned(_) => true
    case Put(_) => w.active && !w.closed
    case Deliver(i) => i < |w.session.out.sends|
    case _ => true
  }

  function Advanced(w: World, c: Checksum): World {
    w.(history := w.history + [Version(Some(w.prints + 1), Holds(c))], prints := w.prints + 1)
  }

  function Reply(w: World, d: Delivery, kind: AckKind): Message
    requires w.history != []
  {
    var current := w.history[Ws(w)];
    Replied(Ack(d.number, Ws(w), kind, current.content, current.fingerprint))
  }

  function Executed(w: World, i: nat): World
    requires w.history != [] && i < |w.session.out.sends|
  {
    var d := w.session.out.sends[i].delivery;
    if w.closed || !w.active then w.(mail := w.mail + {Reply(w, d, Refused)})
    else if d.expected != w.history[Ws(w)].fingerprint then w.(mail := w.mail + {Reply(w, d, Conflicting)})
    else
      var after := Advanced(w, d.checksum);
      after.(mail := w.mail + {Reply(after, d, Written)}, installs := w.installs + [Install(i, Ws(w), w.written)])
  }

  function Wrote(w: World, c: Checksum): World
    requires w.history != []
  {
    var after := Advanced(w, c);
    after.(mail := w.mail + {Noticed(Observation(Ws(after), Some(w.prints + 1), Holds(c), false))},
           written := w.written + {Ws(after)})
  }

  function Handled(w: World, e: Event): World {
    var s := Step(w.session, e);
    w.(session := s, bases := if |s.out.sends| > |w.session.out.sends| then w.bases + [Basis(s.processed, s.disk)]
      else w.bases)
  }

  function Next(w: World, m: Move): World
    requires w.history != [] && Possible(w, m)
  {
    match m
    case Turned(e) => Handled(w, e)
    case Put(c) => Wrote(w, c)
    case Deliver(i) => Executed(w, i)
    case Elsewhere => w.(prints := w.prints + 1)
    case Activate => w.(active := !w.closed)
    case Hold => w.(active := false)
    case Close => w.(closed := true, active := false)
  }

  // ----- what a session's steps do to its reading -----

  predicate SentWith(s: Session, after: Session) {
    || after.out.sends == s.out.sends
    || (&& |after.out.sends| == |s.out.sends| + 1 && after.out.sends[..|s.out.sends|] == s.out.sends
        && after.out.sends[|s.out.sends|].delivery.expected == after.fingerprint)
  }

  lemma DispatchReads(s: Session, now: real)
    ensures SameReading(s, Dispatch(s, now)) && SentWith(s, Dispatch(s, now))
  {
  }

  lemma RequestReads(s: Session, c: Content, force: bool, t: Turn)
    ensures SameReading(s, Request(s, c, force, t)) && Request(s, c, force, t).out.sends == s.out.sends
  {
  }

  lemma ReactedReads(s: Session, o: Observation, kind: Kind, t: Turn)
    ensures SameReading(s, Reacted(s, o, kind, t)) && Reacted(s, o, kind, t).out.sends == s.out.sends
  {
    hide Request;
    RequestReads(s, Canonical(o, kind, t.node), true, t);
    var asked := if Canonicalizes(s, o, kind) then Request(s, Canonical(o, kind, t.node), true, t) else s;
    if t.node.Complete? {
      var again := asked.(reasserts := Recent(asked.reasserts, t.now) + [t.now]);
      RequestReads(again, Holds(t.node.checksum), false, t);
    }
  }

  lemma ObservedReads(s: Session, o: Observation, t: Turn)
    ensures var r := Observed(s, o, t);
            && r.out.sends == s.out.sends
            && (SameReading(s, r) || (r.processed == o.ws && r.fingerprint == o.fingerprint && r.disk == o.content))
  {
    hide Reacted;
    var kind := Classify(o, s.processed, s.disk, s.fingerprint, s.out.inFlight);
    ReactedReads(Sensed(Seen(s, o), o, kind), o, kind, t);
  }

  lemma AfterTurnReads(s: Session, t: Turn)
    ensures SameReading(s, AfterTurn(s, t)) && SentWith(s, AfterTurn(s, t))
  {
    hide Dispatch, Request;
    DispatchReads(s, t.now);
    if Edited(s, t.node) {
      var synced := s.(lastSynced := Some(t.node.checksum));
      DispatchReads(synced, t.now);
      RequestReads(synced, Holds(t.node.checksum), false, t);
      DispatchReads(Request(synced, Holds(t.node.checksum), false, t), t.now);
    }
  }

  /** A step leaves what the session has read alone, or takes the version of its message; and a
      delivery it sends expects the version the session has then read. */
  lemma StepReads(s: Session, e: Event)
    ensures var r := Step(s, e);
            && SentWith(s, r)
            && (|| SameReading(s, r)
                || (e.Observe? && r.processed == e.o.ws && r.fingerprint == e.o.fingerprint && r.disk == e.o.content)
                || (e.Acknowledge? && e.a.kind.Written? && r.processed == e.a.ws && r.fingerprint == e.a.fingerprint
                      && r.disk == e.a.content))
  {
    hide Observed, Dispatch, Request, AfterTurn;
    match e {
      case Observe(o, t) => ObservedReads(s, o, t);
      case Acknowledge(a, now, closing) => DispatchReads(Settled(s, a, now), now);
      case EndTurn(t) => AfterTurnReads(s, t);
      case Flush(now) => DispatchReads(s, now);
      case Clear(t) => RequestReads(s.(error := false, status := Active, reasserts := [], retryAt := 0.0),
        Holds(if t.node.Complete? then t.node.checksum else 0), false, t);
      case Detach =>
    }
  }

  // ----- the invariant -----

  /** Versions with distinct ws have distinct fingerprints. */
  predicate Fingerprinted(history: seq<Version>, prints: nat) {
    && history != [] && history[0].fingerprint.None?
    && (forall k :: 1 <= k < |history| ==> history[k].fingerprint.Some? && history[k].fingerprint.value <= prints)
    && (forall i, j :: 1 <= i < j < |history| ==> history[i].fingerprint.value < history[j].fingerprint.value)
  }

  predicate Reports(history: seq<Version>, ws: nat, fingerprint: Fingerprint, content: Content) {
    0 < ws < |history| && history[ws] == Version(fingerprint, content)
  }

  predicate Truthful(w: World, m: Message) {
    match m
    case Noticed(o) => Reports(w.history, o.ws, o.fingerprint, o.content)
    case Replied(a) => a.kind.Written? ==> Reports(w.history, a.ws, a.fingerprint, a.content)
  }

  /** What the session has read is a version that was: version 0, which no client wrote, it takes
      to be without a value. */
  predicate Known(history: seq<Version>, processed: nat, fingerprint: Fingerprint, disk: Content) {
    && processed < |history| && history[processed].fingerprint == fingerprint
    && disk == if processed > 0 then history[processed].content else Absent
  }

  predicate Based(w: World, i: nat)
    requires i < |w.bases| && i < |w.session.out.sends|
  {
    Known(w.history, w.bases[i].processed, w.session.out.sends[i].delivery.expected, w.bases[i].disk)
  }

  predicate Installed(w: World, install: Install) {
    && install.index < |w.bases| && install.over < |w.history|
    && w.bases[install.index].processed == install.over
    && (forall k :: k in install.earlier ==> k <= install.over)
  }

  predicate Consistent(w: World) {
    && Fingerprinted(w.history, w.prints)
    && (forall m :: m in w.mail ==> Truthful(w, m))
    && Known(w.history, w.session.processed, w.session.fingerprint, w.session.disk)
    && |w.bases| == |w.session.out.sends|
    && (forall i | 0 <= i < |w.bases| :: Based(w, i))
    && (forall k :: k in w.written ==> 0 < k < |w.history|)
    && (forall n :: n in w.installs ==> Installed(w, n))
  }

  /** An expected fingerprint that is the current one belongs to the current version. */
  lemma FingerprintNamesTheVersion(history: seq<Version>, prints: nat, k: nat)
    requires Fingerprinted(history, prints) && k < |history|
    requires history[k].fingerprint == history[|history| - 1].fingerprint
    ensures k == |history| - 1
  {
  }

  lemma AdvancedIsFingerprinted(w: World, c: Checksum)
    requires Fingerprinted(w.history, w.prints)
    ensures Fingerprinted(Advanced(w, c).history, Advanced(w, c).prints)
    ensures forall m :: Truthful(w, m) ==> Truthful(Advanced(w, c), m)
  {
  }

  lemma HandledIsConsistent(w: World, e: Event)
    requires Consistent(w) && Possible(w, Turned(e))
    ensures Consistent(Handled(w, e))
  {
    hide Step;
    StepReads(w.session, e);
    var after := Handled(w, e);
    forall i | 0 <= i < |after.bases| ensures Based(after, i) {
      if i < |w.bases| {
        assert Based(w, i);
      }
    }
    forall n | n in after.installs ensures Installed(after, n) {
      assert Installed(w, n);
    }
    forall m | m in after.mail ensures Truthful(after, m) {
      assert Truthful(w, m);
    }
  }

  lemma GrownIsConsistent(w: World, after: World)
    requires Consistent(w) && Fingerprinted(after.history, after.prints)
    requires |w.history| <= |after.history| && after.history[..|w.history|] == w.history
    requires after.session == w.session && after.bases == w.bases
    requires forall m :: m in after.mail ==> m in w.mail || Truthful(after, m)
    requires forall k :: k in after.written ==> k in w.written || 0 < k < |after.history|
    requires forall n :: n in after.installs ==> n in w.installs || Installed(after, n)
    ensures Consistent(after)
  {
    forall k | 0 <= k < |w.history| ensures after.history[k] == w.history[k] {
      assert after.history[..|w.history|][k] == w.history[k];
    }
    forall m | m in after.mail ensures Truthful(after, m) {
      if m in w.mail {
        assert Truthful(w, m);
      }
    }
    forall i | 0 <= i < |after.bases| ensures Based(after, i) {
      assert Based(w, i);
    }
    forall n | n in after.installs ensures Installed(after, n) {
      if n in w.installs {
        assert Installed(w, n);
      }
    }
  }

  lemma ExecutedIsConsistent(w: World, i: nat)
    requires Consistent(w) && i < |w.session.out.sends|
    ensures Consistent(Executed(w, i))
  {
    var d := w.session.out.sends[i].delivery;
    assert Based(w, i);
    AdvancedIsFingerprinted(w, d.checksum);
    if !w.closed && w.active && d.expected == w.history[Ws(w)].fingerprint {
      FingerprintNamesTheVersion(w.history, w.prints, w.bases[i].processed);
    }
    GrownIsConsistent(w, Executed(w, i));
  }

  lemma NextIsConsistent(w: World, m: Move)
    requires Consistent(w) && Possible(w, m)
    ensures Consistent(Next(w, m))
  {
    match m {
      case Turned(e) => HandledIsConsistent(w, e);
      case Put(c) =>
        AdvancedIsFingerprinted(w, c);
        GrownIsConsistent(w, Wrote(w, c));
      case Deliver(i) => ExecutedIsConsistent(w, i);
      case _ => GrownIsConsistent(w, Next(w, m));
    }
  }

  // ----- every run -----

  predicate Plays(w: World, moves: seq<Move>)
    requires w.history != []
    decreases |moves|
  {
    moves == [] ||
    (Possible(w, moves[0]) && Next(w, moves[0]).history != [] && Plays(Next(w, moves[0]), moves[1..]))
  }

  function Played(w: World, moves: seq<Move>): World
    requires w.history != [] && Plays(w, moves)
    decreases |moves|
  {
    if moves == [] then w else Played(Next(w, moves[0]), moves[1..])
  }

  /** A fresh registration, perhaps with the value of a held share it took over, and its session. */
  function Start(spec: Spec, node: Option<Checksum>, adopted: Content, prints: nat, refused: set<nat>): World {
    World(Attached(spec, Observation(0, None, Absent, false), node, true, refused), false, false,
          [Version(None, adopted)], prints, {}, [], {}, [])
  }

  lemma StartIsConsistent(spec: Spec, node: Option<Checksum>, adopted: Content, prints: nat, refused: set<nat>)
    ensures Consistent(Start(spec, node, adopted, prints, refused))
  {
    var o := Observation(0, None, Absent, false);
    AttachingIsDisciplined(spec, o, node, true, refused);
    AttachingSendsNothing(spec, o, node, true, refused);
  }

  lemma AttachingSendsNothing(spec: Spec, o: Observation, node: Option<Checksum>, noValue: bool, refused: set<nat>)
    ensures Attached(spec, o, node, noValue, refused).out.sends == []
  {
  }

  lemma HistoryBegins(w: World, m: Move)
    requires w.history != [] && Possible(w, m)
    ensures Next(w, m).history != [] && Next(w, m).history[0] == w.history[0]
  {
    hide Step;
  }

  lemma {:induction false} EveryRunIsConsistent(w: World, moves: seq<Move>)
    requires Consistent(w) && Plays(w, moves)
    ensures Consistent(Played(w, moves)) && Played(w, moves).history[0] == w.history[0]
    decreases |moves|
  {
    assert w.history != [];
    hide Consistent, Possible;
    if moves != [] {
      HistoryBegins(w, moves[0]);
      NextIsConsistent(w, moves[0]);
      EveryRunIsConsistent(Next(w, moves[0]), moves[1..]);
    }
  }

  /** Over every run: a delivery is installed only over the very version the session had read when
      it sent it. So each client write accepted before the installation had been taken note of
      at that time. What the delivery replaced is the content the session knew exactly if
      something had been written since the registration began, or it began without a value. */
  lemma NoBlindOverwrite(spec: Spec, node: Option<Checksum>, adopted: Content, prints: nat, refused: set<nat>,
      moves: seq<Move>, install: Install)
    requires Plays(Start(spec, node, adopted, prints, refused), moves)
    requires install in Played(Start(spec, node, adopted, prints, refused), moves).installs
    ensures var w := Played(Start(spec, node, adopted, prints, refused), moves);
            && install.index < |w.bases| && install.over < |w.history|
            && var basis := w.bases[install.index];
               && basis.processed == install.over
               && (forall k :: k in install.earlier ==> k <= basis.processed)
               && (w.history[install.over].content == basis.disk <==> install.over > 0 || adopted == Absent)
  {
    StartIsConsistent(spec, node, adopted, prints, refused);
    EveryRunIsConsistent(Start(spec, node, adopted, prints, refused), moves);
    var w := Played(Start(spec, node, adopted, prints, refused), moves);
    assert w.history[0].content == adopted;
    hide Played, Plays;
    assert Installed(w, install);
    assert Based(w, install.index);
  }

  const READY_FIVE := Turned(EndTurn(Turn(Complete(5), 1.0, true, {})))

  /** A share with a value of its own takes over a held one's value, 9, and its node's 5 is
      delivered over it by a session that took the share to be without a value. */
  lemma AdoptedValueIsOverwritten()
    ensures var start := Start(Spec(Both, CellWins, true, false, true), Some(5), Holds(9), 0, {});
            var moves := [Activate, READY_FIVE, Deliver(0)];
            && Plays(start, moves)
            && var w := Played(start, moves);
               && w.installs == [Install(0, 0, {})] && |w.bases| == 1 && |w.history| == 2
               && w.history[0].content == Holds(9) && w.bases[0].disk == Absent && w.history[1].content == Holds(5)
  {
    var start := Start(Spec(Both, CellWins, true, false, true), Some(5), Holds(9), 0, {});
    var active := Next(start, Activate);
    var sent := Next(active, READY_FIVE);
    assert sent.session.out.sends == [Send(1.0, Delivery(1, 5, None, false))];
    var done := Next(sent, Deliver(0));
    assert done.installs == [Install(0, 0, {})] && done.bases == [Basis(0, Absent)];
    assert Possible(start, Activate) && Possible(active, READY_FIVE) && Possible(sent, Deliver(0));
    hide Next, Possible;
    assert [Activate, READY_FIVE, Deliver(0)][1..] == [READY_FIVE, Deliver(0)];
    assert [READY_FIVE, Deliver(0)][1..] == [Deliver(0)] && [Deliver(0)][1..] == [];
    assert Plays(done, []) && Played(done, []) == done;
    assert Plays(sent, [Deliver(0)]) && Played(sent, [Deliver(0)]) == done;
    assert Plays(active, [READY_FIVE, Deliver(0)]) && Played(active, [READY_FIVE, Deliver(0)]) == done;
  }

  /** A client write that the session had not read when it sent a delivery makes the server
      refuse that delivery as a conflict, leaving the registration as the client left it. */
  lemma UnseenWriteConflicts(w: World, i: nat, k: nat)
    requires Consistent(w) && w.active && !w.closed && i < |w.session.out.sends|
    requires k in w.written && w.bases[i].processed < k
    ensures var after := Executed(w, i);
            && after.history == w.history && after.installs == w.installs
            && Reply(w, w.session.out.sends[i].delivery, Conflicting) in after.mail
  {
    assert Based(w, i);
    var read := w.bases[i].processed;
    if w.session.out.sends[i].delivery.expected == w.history[Ws(w)].fingerprint {
      FingerprintNamesTheVersion(w.history, w.prints, read);
    }
  }
}
