/** Which value a mount's delivery carries: the one that was asked for at the step that gave it its
    number. And when what waits is no longer what was asked for last. */
module DeliveredValues {
  import opened Wrappers
  import opened MountSessions

  // ----- what a step may ask for -----

  /** A step asks for the node's value; an observation of a resource that is both read and written, for
      its canonical form: of what it now holds, or of the node's value if it holds what it held. */
  predicate AskedFor(s: Session, e: Event, c: Checksum) {
    match e
    case EndTurn(t) => t.node == Complete(c)
    case Clear(t) => t.node == Complete(c)
    case Observe(o, t) =>
      if s.spec.mode.Both? then
        && o.canonicalize
        && (if o.content == s.disk && t.node.Complete? then t.node == Complete(c) else o.content == Holds(c))
      else t.node == Complete(c)
    case _ => false
  }

  /** An attachment asks for the node's value, the resource's own, or null for a node without one. */
  predicate AskedAtFirst(o: Observation, node: Option<Checksum>, c: Checksum) {
    node == Some(c) || o.content == Holds(c) || (node.None? && c == NULL_CHECKSUM)
  }

  predicate Is(d: Option<Delivery>, number: nat, c: Checksum) {
    d.Some? && d.value.number == number && d.value.checksum == c
  }

  /** A delivery of this number and value waits, is out, or has left. */
  predicate Carries(s: Session, number: nat, c: Checksum) {
    || Is(s.out.pending, number, c) || Is(s.out.inFlight, number, c)
    || exists i :: 0 <= i < |s.out.sends| && Is(Some(s.out.sends[i].delivery), number, c)
  }

  /** The step gave the number, and asked for the value. */
  predicate Gave(s: Session, e: Event, number: nat, c: Checksum) {
    s.out.number < number <= Step(s, e).out.number && AskedFor(s, e, c)
  }

  /** Some step of the run gave the number, and asked for the value. */
  predicate GivenIn(s: Session, events: seq<Event>, number: nat, c: Checksum)
    decreases |events|
  {
    events != [] && (Gave(s, events[0], number, c) || GivenIn(Step(s, events[0]), events[1..], number, c))
  }

  /** What `r` carries `s` carried, but for one new delivery, of the value and with the next number. */
  ghost predicate CarriesOn(s: Session, r: Session, asked: Content) {
    && s.out.number <= r.out.number <= s.out.number + 1
    && forall n: nat, c: Checksum :: Carries(r, n, c) ==>
       Carries(s, n, c) || (n == r.out.number > s.out.number && asked == Holds(c))
  }

  ghost predicate CarriesNoMore(s: Session, r: Session) {
    r.out.number == s.out.number && forall n: nat, c: Checksum :: Carries(r, n, c) ==> Carries(s, n, c)
  }

  lemma RequestCarries(s: Session, c: Content, force: bool, t: Turn)
    ensures CarriesOn(s, Request(s, c, force, t), c)
  {
  }

  lemma DispatchCarries(s: Session, now: real)
    ensures CarriesNoMore(s, Dispatch(s, now))
  {
    var r := Dispatch(s, now);
    hide Equivalent;
    forall n: nat, c: Checksum | Carries(r, n, c) ensures Carries(s, n, c) {
      if i :| 0 <= i < |r.out.sends| && Is(Some(r.out.sends[i].delivery), n, c) {
        if i < |s.out.sends| {
          assert r.out.sends[i] == s.out.sends[i];
        }
      }
    }
  }

  lemma SettledCarries(s: Session, a: Ack, now: real)
    ensures CarriesNoMore(s, Settled(s, a, now))
  {
  }

  lemma SensedCarries(s: Session, o: Observation, kind: Kind)
    ensures CarriesNoMore(s, Sensed(s, o, kind)) && Sensed(s, o, kind).spec == s.spec
  {
  }

  lemma ReassertedCarries(s: Session, t: Turn)
    requires t.node.Complete?
    ensures CarriesOn(s, Reasserted(s, t), Holds(t.node.checksum))
  {
    var again := s.(reasserts := Recent(s.reasserts, t.now) + [t.now]);
    RequestCarries(again, Holds(t.node.checksum), false, t);
    assert forall n: nat, c: Checksum :: Carries(again, n, c) ==> Carries(s, n, c);
    hide Request, Recent;
  }

  lemma ObservedCarries(s: Session, o: Observation, t: Turn)
    ensures var r := Observed(s, o, t);
            && s.out.number <= r.out.number
            && forall n: nat, c: Checksum :: Carries(r, n, c) ==>
                 Carries(s, n, c) || (s.out.number < n <= r.out.number && AskedFor(s, Observe(o, t), c))
  {
    var kind := Classify(o, s.processed, s.disk, s.fingerprint, s.out.inFlight);
    var seen := Seen(s, o);
    var sensed := Sensed(seen, o, kind);
    assert forall n: nat, c: Checksum :: Carries(seen, n, c) <==> Carries(s, n, c);
    SensedCarries(seen, o, kind);
    RequestCarries(sensed, Canonical(o, kind, t.node), true, t);
    if t.node.Complete? {
      ReassertedCarries(sensed, t);
    }
    hide Request, Reasserted, Sensed, Carries;
  }

  lemma AfterTurnCarries(s: Session, t: Turn)
    ensures var r := AfterTurn(s, t);
            && s.out.number <= r.out.number
            && forall n: nat, c: Checksum :: Carries(r, n, c) ==>
                 Carries(s, n, c) || (s.out.number < n <= r.out.number && t.node == Complete(c))
  {
    DispatchCarries(s, t.now);
    if Edited(s, t.node) {
      var synced := s.(lastSynced := Some(t.node.checksum));
      assert forall n: nat, c: Checksum :: Carries(synced, n, c) <==> Carries(s, n, c);
      DispatchCarries(synced, t.now);
      RequestCarries(synced, Holds(t.node.checksum), false, t);
      DispatchCarries(Request(synced, Holds(t.node.checksum), false, t), t.now);
    }
    hide Request, Dispatch, Carries, Grants;
  }

  lemma ClearedCarries(s: Session, t: Turn)
    ensures var r := Cleared(s, t);
            && s.out.number <= r.out.number
            && forall n: nat, c: Checksum :: Carries(r, n, c) ==>
                 Carries(s, n, c) || (s.out.number < n <= r.out.number && t.node == Complete(c))
  {
    var cleared := s.(error := false, status := Active, reasserts := [], retryAt := 0.0);
    assert forall n: nat, c: Checksum :: Carries(cleared, n, c) <==> Carries(s, n, c);
    if t.node.Complete? {
      RequestCarries(cleared, Holds(t.node.checksum), false, t);
    }
    hide Request, Carries;
  }

  /** Whatever waits, is out or has left after a step did so before, or has a number that this step gave
      and a value that it asked for. */
  lemma StepCarries(s: Session, e: Event, number: nat, c: Checksum)
    requires Carries(Step(s, e), number, c)
    ensures Carries(s, number, c) || Gave(s, e, number, c)
    ensures s.out.number <= Step(s, e).out.number
  {
    hide Carries, Observed, AfterTurn, Cleared, Dispatch, Settled;
    if !s.status.Closing? {
      match e {
        case Observe(o, t) => ObservedCarries(s, o, t);
        case Acknowledge(a, now, closing) =>
          SettledCarries(s, a, now);
          DispatchCarries(Settled(s, a, now), now);
        case EndTurn(t) => AfterTurnCarries(s, t);
        case Flush(now) => DispatchCarries(s, now);
        case Clear(t) => ClearedCarries(s, t);
        case Detach => DetachedCarries(s, number, c);
      }
    }
  }

  lemma DetachedCarries(s: Session, number: nat, c: Checksum)
    ensures Carries(Detached(s), number, c) ==> Carries(s, number, c)
    ensures Detached(s).out.number == s.out.number
  {
  }

  lemma {:induction false} RunCarries(s: Session, events: seq<Event>, number: nat, c: Checksum)
    requires Carries(Run(s, events), number, c)
    ensures Carries(s, number, c) || GivenIn(s, events, number, c)
    decreases |events|
  {
    hide Carries, Step, Gave;
    if events != [] {
      RunCarries(Step(s, events[0]), events[1..], number, c);
      if Carries(Step(s, events[0]), number, c) {
        StepCarries(s, events[0], number, c);
      }
    }
  }

  lemma AttachedCarries(spec: Spec, o: Observation, node: Option<Checksum>, noValue: bool, refused: set<nat>,
      number: nat, c: Checksum)
    requires Carries(Attached(spec, o, node, noValue, refused), number, c)
    ensures 0 < number <= Attached(spec, o, node, noValue, refused).out.number && AskedAtFirst(o, node, c)
  {
    var action := DecideInitial(spec, o.content, node, noValue);
    var t := Turn(Incomplete, 0.0, true, refused);
    var begun := Fresh(spec, o, node);
    var acted := Acted(begun, action, o, node, t);
    ActedCarries(begun, action, o, node, t, number, c);
    var filled := if Stopped(acted, t) then acted else Filled(acted, o, node, t);
    RequestCarries(acted, Holds(NULL_CHECKSUM), true, t);
    RequestCarries(filled, o.content, true, t);
    if node.Some? {
      RequestCarries(filled, Holds(node.value), true, t);
    }
    hide Request, Acted, Carries, DecideInitial;
  }

  lemma ActedCarries(s: Session, action: Action, o: Observation, node: Option<Checksum>, t: Turn, number: nat,
      c: Checksum)
    requires s.out.pending.None? && s.out.inFlight.None? && s.out.sends == [] && s.out.number == 0
    requires action.SenseNull? ==> node.None?
    ensures Carries(Acted(s, action, o, node, t), number, c) ==>
      0 < number <= Acted(s, action, o, node, t).out.number && AskedAtFirst(o, node, c)
  {
  }

  /** Over every run of a session, each delivery that waits, is out or has left carries the value that
      was asked for at the one step that gave it its number: the node's, or, to make a resource
      canonical, what was observed. */
  lemma EveryDeliveryWasAskedFor(spec: Spec, o: Observation, node: Option<Checksum>, noValue: bool, refused: set<nat>,
      events: seq<Event>, number: nat, c: Checksum)
    requires Carries(Run(Attached(spec, o, node, noValue, refused), events), number, c)
    ensures var s := Attached(spec, o, node, noValue, refused);
            || (0 < number <= s.out.number && AskedAtFirst(o, node, c))
            || (number > s.out.number && GivenIn(s, events, number, c))
  {
    var s := Attached(spec, o, node, noValue, refused);
    hide Carries, Attached, GivenIn, Run;
    RunCarries(s, events, number, c);
    if Carries(s, number, c) {
      AttachedCarries(spec, o, node, noValue, refused, number, c);
    } else {
      GivenLater(s, events, number, c);
    }
  }

  lemma {:induction false} GivenLater(s: Session, events: seq<Event>, number: nat, c: Checksum)
    requires GivenIn(s, events, number, c)
    ensures number > s.out.number
    decreases |events|
  {
    hide Step, AskedFor;
    if !Gave(s, events[0], number, c) {
      NumbersGrow(s, events[0]);
      GivenLater(Step(s, events[0]), events[1..], number, c);
    }
  }

  lemma NumbersGrow(s: Session, e: Event)
    ensures s.out.number <= Step(s, e).out.number
  {
    hide Observed, AfterTurn, Cleared, Dispatch, Settled;
    if !s.status.Closing? {
      match e {
        case Observe(o, t) => ObservedCarries(s, o, t);
        case Acknowledge(a, now, closing) =>
          SettledCarries(s, a, now);
          DispatchCarries(Settled(s, a, now), now);
        case EndTurn(t) => AfterTurnCarries(s, t);
        case Flush(now) => DispatchCarries(s, now);
        case Clear(t) => ClearedCarries(s, t);
        case Detach =>
      }
    }
  }

  // ----- an edit -----

  /** A null needs no delivery where nothing is, nor to a directory. */
  predicate NeedsNone(s: Session, c: Checksum) {
    c == NULL_CHECKSUM && ((s.disk.Absent? && !s.spec.share) || s.spec.directory)
  }

  /** A granted edit of a value that is not on disk is delivered: by the end of the turn a delivery of
      exactly the node's value waits or is out, under a new number, unless it is a null that needs none
      and nothing was out. */
  lemma EditIsDelivered(s: Session, t: Turn)
    requires s.status.Active? && Edited(s, t.node) && Holds(t.node.checksum) != s.disk && t.now >= 0.0
    requires s.out.number + 1 !in t.refused
    ensures var r, v := AfterTurn(s, t), t.node.checksum;
            && r.lastSynced == Some(v) && r.out.number == s.out.number + 1
            && (Is(r.out.pending, r.out.number, v) || Is(r.out.inFlight, r.out.number, v) <==>
                  !(NeedsNone(s, v) && s.out.inFlight.None?))
            && (r.out.pending.Some? ==> Is(r.out.pending, r.out.number, v))
            && (s.out.inFlight.None? && !NeedsNone(s, v) && s.out.lastDispatch + INTERVAL <= t.now ==>
                  Is(r.out.inFlight, r.out.number, v))
  {
  }

  // ----- what waits, and what was asked for last -----

  /** What waits is what was asked for, or taken note of, last. */
  predicate Current(s: Session) {
    s.out.pending.Some? ==> s.lastSynced == Some(s.out.pending.value.checksum)
  }

  /** The step takes note of a value without a delivery for it, and leaves waiting one of another value:
      an edit whose lease is refused; an edit back to the value on disk; or a failed delivery comes back
      after all that was asked for since is gone. */
  predicate Outdates(s: Session, e: Event) {
    match e
    case EndTurn(t) =>
      && Edited(s, t.node) && s.out.pending.Some? && s.out.pending.value.checksum != t.node.checksum
      && (if Holds(t.node.checksum) == s.disk then Dispatch(s, t.now).out.pending.Some?
          else s.status.Active? && s.out.number + 1 in t.refused)
    case Acknowledge(a, now, closing) =>
      && s.out.inFlight.Some? && s.out.inFlight.value.number == a.number && a.kind.Refused?
      && s.out.pending.None? && s.status.Active? && s.lastSynced != Some(s.out.inFlight.value.checksum)
    case _ => false
  }

  lemma RequestIsCurrent(s: Session, c: Content, force: bool, t: Turn)
    ensures Current(Request(s, c, force, t)) <==> Current(s) || (s.status.Active? && Grants(s, c, t))
  {
  }

  lemma DispatchIsCurrent(s: Session, now: real)
    ensures var r := Dispatch(s, now);
            && r.lastSynced == s.lastSynced && (r.out.pending.Some? ==> r.out.pending == s.out.pending)
            && (Current(s) ==> Current(r))
  {
    hide Equivalent;
  }

  lemma ReassertedIsCurrent(s: Session, t: Turn)
    requires Current(s) && t.node.Complete?
    ensures Current(Reasserted(s, t))
  {
    var again := s.(reasserts := Recent(s.reasserts, t.now) + [t.now]);
    RequestIsCurrent(again, Holds(t.node.checksum), false, t);
    hide Request, Recent;
  }

  lemma SensedIsCurrent(s: Session, o: Observation, kind: Kind)
    requires Current(s)
    ensures Current(Sensed(s, o, kind))
  {
  }

  lemma ObservedIsCurrent(s: Session, o: Observation, t: Turn)
    requires Current(s)
    ensures Current(Observed(s, o, t))
  {
    var kind := Classify(o, s.processed, s.disk, s.fingerprint, s.out.inFlight);
    var seen := Seen(s, o);
    SensedIsCurrent(seen, o, kind);
    var sensed := Sensed(seen, o, kind);
    RequestIsCurrent(sensed, Canonical(o, kind, t.node), true, t);
    var asked := Request(sensed, Canonical(o, kind, t.node), true, t);
    if t.node.Complete? {
      ReassertedIsCurrent(sensed, t);
      ReassertedIsCurrent(asked, t);
    }
    hide Request, Reasserted, Sensed, Senses, Canonicalizes;
  }

  lemma SettledIsCurrent(s: Session, a: Ack, now: real)
    requires Current(s) && s.out.inFlight.Some? && s.out.inFlight.value.number == a.number && 1.0 <= s.retryDelay
    ensures var r := Settled(s, a, now);
            && (Current(r) <==> !Outdates(s, Acknowledge(a, now, true)))
            && (!Current(r) ==> r.retryAt > now)
  {
  }

  lemma AfterTurnOutdates(s: Session, t: Turn)
    requires Current(s) && (s.out.pending.Some? ==> s.status.Active?)
    ensures Current(AfterTurn(s, t)) <==> !Outdates(s, EndTurn(t))
  {
    DispatchIsCurrent(s, t.now);
    if Edited(s, t.node) {
      var synced := s.(lastSynced := Some(t.node.checksum));
      DispatchIsCurrent(synced, t.now);
      RequestIsCurrent(synced, Holds(t.node.checksum), false, t);
      DispatchIsCurrent(Request(synced, Holds(t.node.checksum), false, t), t.now);
      assert Dispatch(synced, t.now).out == Dispatch(s, t.now).out;
      hide Dispatch;
    }
  }

  /** A step outdates what waits exactly then. */
  lemma OutdatesIff(s: Session, e: Event)
    requires Disciplined(s) && Current(s) && !s.status.Closing?
    ensures Current(Step(s, e)) <==> !Outdates(s, e)
  {
    match e {
      case Observe(o, t) =>
        ObservedIsCurrent(s, o, t);
      case Acknowledge(a, now, closing) =>
        if s.out.inFlight.Some? && s.out.inFlight.value.number == a.number {
          var settled := Settled(s, a, now);
          SettledIsCurrent(s, a, now);
          DispatchIsCurrent(settled, now);
          assert settled.retryAt > now ==> Dispatch(settled, now) == settled;
          hide Settled, Dispatch, Current;
        }
      case EndTurn(t) =>
        AfterTurnOutdates(s, t);
      case Flush(now) =>
        DispatchIsCurrent(s, now);
      case Clear(t) =>
        var cleared := s.(error := false, status := Active, reasserts := [], retryAt := 0.0);
        if t.node.Complete? {
          RequestIsCurrent(cleared, Holds(t.node.checksum), false, t);
        }
        hide Request;
      case Detach =>
    }
  }

  // ----- a delivery that is out of date -----

  const HELD := Observation(1, Some(1), Holds(5), false)
  const EDIT_SEVEN := EndTurn(Turn(Complete(7), 0.1, true, {}))
  const BACK_TO_FIVE := EndTurn(Turn(Complete(5), 0.2, true, {}))
  const LATER := EndTurn(Turn(Complete(5), 1.0, true, {}))

  /** A node is edited from the value on disk and back within the interval between deliveries. The
      first edit's delivery waits on, and leaves at the next turn: of 7, over a disk that holds the
      node's 5. */
  lemma EditBackLeavesADelivery()
    ensures var s := Attached(SPEC, HELD, Some(5), false, {});
            var r := Run(s, [EDIT_SEVEN, BACK_TO_FIVE, LATER]);
            && Disciplined(s) && Current(s) && Outdates(Step(s, EDIT_SEVEN), BACK_TO_FIVE)
            && r.out.inFlight == Some(Delivery(1, 7, Some(1), false)) && r.disk == Holds(5) && r.lastSynced == Some(5)
  {
    AttachingIsDisciplined(SPEC, HELD, Some(5), false, {});
    var s := Attached(SPEC, HELD, Some(5), false, {});
    assert s.out.pending.None? && s.lastSynced == Some(5) && s.disk == Holds(5) && s.status.Active?;
    var one := Step(s, EDIT_SEVEN);
    assert one.out.pending == Some(Delivery(1, 7, Some(1), false)) && one.out.inFlight.None? && one.disk == Holds(5);
    var two := Step(one, BACK_TO_FIVE);
    assert two.out.pending == Some(Delivery(1, 7, Some(1), false)) && two.lastSynced == Some(5);
    var three := Step(two, LATER);
    assert three.out.inFlight == Some(Delivery(1, 7, Some(1), false)) && three.disk == Holds(5);
    hide Step, Attached, Outdates, Disciplined;
    assert [EDIT_SEVEN, BACK_TO_FIVE, LATER][1..] == [BACK_TO_FIVE, LATER];
    assert [BACK_TO_FIVE, LATER][1..] == [LATER] && [LATER][1..] == [];
    assert Run(s, [EDIT_SEVEN, BACK_TO_FIVE, LATER]) == Run(one, [BACK_TO_FIVE, LATER]) == Run(two, [LATER]);
    assert Run(two, [LATER]) == Run(three, []);
  }
}
