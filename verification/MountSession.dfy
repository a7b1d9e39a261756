/** A controller-owned session between one node and one attached resource: what it has processed,
    the one delivery that waits and the one that is out, and the claims that keep their data. */
module MountSessions {
  import opened Wrappers

  type Checksum = nat

  /** What a resource holds, as its transport reports it. */
  datatype Content = Absent | Invalid | Holds(checksum: Checksum)

  type Fingerprint = Option<nat>

  datatype Mode = Reading | Writing | Both
  datatype Authority = CellWins | ResourceWins | Strict

  datatype Spec = Spec(mode: Mode, authority: Authority, share: bool, directory: bool, persistent: bool) {
    predicate Reads() { mode != Writing }
    predicate Writes() { mode != Reading }
  }

  datatype Delivery = Delivery(number: nat, checksum: Checksum, expected: Fingerprint, force: bool)

  datatype Observation = Observation(ws: nat, fingerprint: Fingerprint, content: Content, canonicalize: bool)

  datatype AckKind = Written | Refused | Conflicting
  datatype Ack = Ack(number: nat, ws: nat, kind: AckKind, content: Content, fingerprint: Fingerprint)

  datatype Node = Complete(checksum: Checksum) | Incomplete

  datatype Status = Active | Tripped | Closing

  datatype Send = Send(at: real, delivery: Delivery)

  /** The delivery side of a session. `leases` names the unreleased delivery leases by the number
      of their delivery; `sends` logs the dispatches. */
  datatype Outbox = Outbox(pending: Option<Delivery>, inFlight: Option<Delivery>, number: nat,
                           lastDispatch: real, leases: set<nat>, sends: seq<Send>)

  /** `stirs` counts the session's senses and requests. */
  datatype Session = Session(
    spec: Spec, disk: Content, fingerprint: Fingerprint, processed: nat, lastSynced: Option<Checksum>,
    reasserts: seq<real>, senseError: bool, error: bool, status: Status,
    retryAt: real, retryDelay: real, stirs: nat, out: Outbox)

  /** What a turn reads besides the session: the node, the clock, whether the node may be
      written, and which delivery numbers are refused their lease. */
  datatype Turn = Turn(node: Node, now: real, writable: bool, refused: set<nat>)

  const INTERVAL: real := 2.0 / 3.0
  const NULL_CHECKSUM: Checksum := 0
  const WINDOW: real := 20.0
  const THRESHOLD: nat := 3

  // ----- attachment policy -----

  datatype Kind = Stale | Unchanged | Rejected | Gone | Echo | Foreign

  function Classify(o: Observation, processed: nat, disk: Content, fingerprint: Fingerprint,
      out: Option<Delivery>): Kind {
    if o.ws <= processed then Stale
    else if o.content == disk && (o.content.Holds? || o.fingerprint == fingerprint) then Unchanged
    else if o.content.Invalid? then Rejected
    else if o.content.Absent? then Gone
    else if out.Some? && o.content == Holds(out.value.checksum) then Echo
    else Foreign
  }

  datatype Action = Nothing | Fail | SenseNull | SenseNullFail | Sense | Write

  function DecideInitial(spec: Spec, disk: Content, node: Option<Checksum>, noValue: bool): Action {
    if node.None? then
      if !spec.Reads() then Nothing
      else if disk.Invalid? then Fail
      else if disk.Absent? && spec.authority.Strict? then SenseNullFail
      else if noValue || disk.Absent? then SenseNull else Sense
    else if disk.Absent? || noValue then
      if disk.Absent? && spec.authority.Strict? then Fail
      else if node.value == NULL_CHECKSUM then Nothing
      else if spec.Writes() then Write else Nothing
    else if spec.mode.Writing? || spec.authority.CellWins? then
      if spec.Writes() && disk != Holds(node.value) then Write else Nothing
    else if disk.Invalid? then Fail
    else if disk != Holds(node.value) then Sense else Nothing
  }

  predicate Reassert(mode: Mode, node: Node, kind: Kind) {
    mode.Writing? && node.Complete? && (kind.Foreign? || kind.Rejected? || kind.Gone?)
  }

  function Recent(times: seq<real>, now: real): (r: seq<real>)
    ensures |r| <= |times|
  {
    if times == [] then []
    else (if now - times[0] <= WINDOW then [times[0]] else []) + Recent(times[1..], now)
  }

  // ----- the outbox -----

  function Named(d: Option<Delivery>): set<nat> {
    if d.Some? then {d.value.number} else {}
  }

  /** A new delivery replaces the one that waits, whose lease is given up before the new one is
      asked for; a refusal leaves the old delivery waiting without it. */
  function Asked(b: Outbox, checksum: Checksum, expected: Fingerprint, force: bool): Outbox {
    b.(number := b.number + 1, leases := b.leases - Named(b.pending) + {b.number + 1},
       pending := Some(Delivery(b.number + 1, checksum, expected, force)))
  }

  function Denied(b: Outbox): Outbox {
    b.(number := b.number + 1, leases := b.leases - Named(b.pending))
  }

  function Discarded(b: Outbox): Outbox {
    b.(pending := None, leases := b.leases - Named(b.pending))
  }

  function Launched(b: Outbox, now: real, expected: Fingerprint): Outbox
    requires b.pending.Some?
  {
    var d := b.pending.value.(expected := expected);
    b.(pending := None, inFlight := Some(d), lastDispatch := now, sends := b.sends + [Send(now, d)])
  }

  function Landed(b: Outbox): Outbox {
    b.(inFlight := None, leases := b.leases - Named(b.inFlight))
  }

  function Returned(b: Outbox): Outbox {
    b.(inFlight := None, pending := b.inFlight)
  }

  // ----- message handlers -----

  predicate Grants(s: Session, c: Content, t: Turn) {
    s.status != Active || (c.Holds? && s.out.number + 1 !in t.refused)
  }

  function Request(s: Session, c: Content, force: bool, t: Turn): Session {
    if s.status != Active then s
    else if !Grants(s, c, t) then s.(out := Denied(s.out))
    else
      s.(out := Asked(s.out, c.checksum, s.fingerprint, force), lastSynced := Some(c.checksum), retryAt := 0.0,
         stirs := s.stirs + 1)
  }

  predicate Equivalent(s: Session, d: Delivery) {
    || Holds(d.checksum) == s.disk
    || (d.checksum == NULL_CHECKSUM && s.disk.Absent? && !s.spec.share)
    || (d.checksum == NULL_CHECKSUM && s.spec.directory)
  }

  function Dispatch(s: Session, now: real): Session {
    if s.out.inFlight.Some? || s.out.pending.None? || s.status != Active || s.retryAt > now then s
    else if Equivalent(s, s.out.pending.value) && !s.out.pending.value.force then s.(out := Discarded(s.out))
    else if now < s.out.lastDispatch + INTERVAL then s
    else s.(out := Launched(s.out, now, s.fingerprint))
  }

  /** The resource's value replaces the node's, and supersedes an undispatched user edit. */
  function TakeValue(s: Session, c: Checksum): Session {
    s.(lastSynced := Some(c), senseError := false, out := Discarded(s.out), stirs := s.stirs + 1)
  }

  predicate Senses(s: Session, o: Observation, kind: Kind) {
    && s.spec.Reads() && o.content.Holds?
    && (kind.Foreign? || (kind.Unchanged? && s.senseError))
  }

  function Sensed(s: Session, o: Observation, kind: Kind): Session {
    if Senses(s, o, kind) then TakeValue(s, o.content.checksum)
    else if kind.Rejected? && s.spec.Reads() then s.(senseError := true)
    else if kind.Gone? && s.spec.authority.Strict? then s.(senseError := true)
    else if kind.Gone? then s.(senseError := false)
    else s
  }

  predicate Canonicalizes(s: Session, o: Observation, kind: Kind) {
    s.spec.mode.Both? && o.canonicalize && (kind.Foreign? || kind.Unchanged?) && !s.senseError
  }

  function Reasserted(s: Session, t: Turn): Session
    requires t.node.Complete?
  {
    var recent := Recent(s.reasserts, t.now) + [t.now];
    var s := s.(reasserts := recent);
    if |recent| >= THRESHOLD then s.(status := Tripped, error := true, out := Discarded(s.out))
    else if Grants(s, Holds(t.node.checksum), t) then Request(s, Holds(t.node.checksum), false, t)
    else Request(s, Holds(t.node.checksum), false, t).(error := true)
  }

  function Canonical(o: Observation, kind: Kind, node: Node): Content {
    if kind.Foreign? || node.Incomplete? then o.content else Holds(node.checksum)
  }

  /** A non-canonical resource is rewritten, and a written resource that was changed is reasserted. */
  function Reacted(s: Session, o: Observation, kind: Kind, t: Turn): Session {
    var c := Canonical(o, kind, t.node);
    if Canonicalizes(s, o, kind) && !Grants(s, c, t) then Request(s, c, true, t).(error := true)
    else
      var s := if Canonicalizes(s, o, kind) then Request(s, c, true, t) else s;
      if Reassert(s.spec.mode, t.node, kind) && s.status.Active? then Reasserted(s, t) else s
  }

  function Observed(s: Session, o: Observation, t: Turn): Session {
    var kind := Classify(o, s.processed, s.disk, s.fingerprint, s.out.inFlight);
    if kind.Stale? then s
    else
      var seen := s.(processed := o.ws, disk := o.content, fingerprint := o.fingerprint);
      if Senses(seen, o, kind) && !t.writable then seen.(error := true)
      else
        Reacted(Sensed(seen, o, kind), o, kind, t)
  }

  function Settled(s: Session, a: Ack, now: real): Session {
    match a.kind
    case Written =>
      var s := if a.ws > s.processed then s.(disk := a.content, fingerprint := a.fingerprint, processed := a.ws) else s;
      s.(error := if s.status.Tripped? then s.error else false, retryDelay := 1.0, out := Landed(s.out))
    case Refused =>
      if s.out.pending.None? && s.status.Active? then
        s.(error := true, out := Returned(s.out), retryAt := now + s.retryDelay,
           retryDelay := if s.retryDelay * 2.0 < 60.0 then s.retryDelay * 2.0 else 60.0)
      else s.(error := true, out := Landed(s.out))
    case Conflicting => s.(out := Landed(s.out))
  }

  predicate Flushes(s: Session) {
    s.spec.persistent && s.out.pending.Some? && !s.error
  }

  function Delivered(s: Session, a: Ack, now: real, closing: bool): Session {
    if s.out.inFlight.None? || s.out.inFlight.value.number != a.number then s
    else
      var s := Settled(s, a, now);
      if !closing || Flushes(s) then Dispatch(s, now) else s
  }

  function Flushed(s: Session, now: real): Session {
    if Flushes(s) then Dispatch(s, now) else s
  }

  predicate Edited(s: Session, node: Node) {
    s.spec.Writes() && node.Complete? && s.lastSynced != Some(node.checksum)
  }

  function AfterTurn(s: Session, t: Turn): Session {
    if Edited(s, t.node) then
      var s := s.(lastSynced := Some(t.node.checksum));
      if Holds(t.node.checksum) == s.disk then Dispatch(s, t.now)
      else if Grants(s, Holds(t.node.checksum), t) then Dispatch(Request(s, Holds(t.node.checksum), false, t), t.now)
      else Request(s, Holds(t.node.checksum), false, t)
    else Dispatch(s, t.now)
  }

  function Cleared(s: Session, t: Turn): Session {
    var s := s.(error := false, status := Active, reasserts := [], retryAt := 0.0);
    if s.spec.Writes() && t.node.Complete? then Request(s, Holds(t.node.checksum), false, t) else s
  }

  function Detached(s: Session): Session {
    s.(status := Closing, out := Landed(Discarded(s.out)))
  }

  // ----- attaching -----

  function Fresh(spec: Spec, o: Observation, node: Option<Checksum>): Session {
    Session(spec, o.content, o.fingerprint, o.ws, node, [], false, false, Active, 0.0, 1.0, 0,
            Outbox(None, None, 0, 0.0, {}, []))
  }

  function Acted(s: Session, action: Action, o: Observation, node: Option<Checksum>, t: Turn): Session {
    match action
    case Sense => if o.content.Holds? then TakeValue(s, o.content.checksum) else s
    case SenseNull =>
      var s := TakeValue(s, NULL_CHECKSUM);
      if s.spec.share && s.spec.mode.Both? then Request(s, Holds(NULL_CHECKSUM), true, t) else s
    case SenseNullFail => TakeValue(s, NULL_CHECKSUM).(senseError := true)
    case Fail => s.(senseError := true)
    case Write => if node.Some? then Request(s, Holds(node.value), false, t) else s
    case Nothing => s
  }

  /** The last request was refused its lease: its exception ends the attachment there. */
  predicate Stopped(s: Session, t: Turn) { s.out.number > 0 && s.out.number in t.refused }

  /** A share without a value is given the node's null. */
  function Filled(s: Session, o: Observation, node: Option<Checksum>, t: Turn): Session {
    if s.spec.share && o.content.Absent? && node == Some(NULL_CHECKSUM)
    then Request(s, Holds(NULL_CHECKSUM), true, t) else s
  }

  /** A non-canonical resource is rewritten. */
  function Rewritten(s: Session, action: Action, o: Observation, node: Option<Checksum>, t: Turn): Session {
    if s.spec.mode.Both? && o.canonicalize && action.Sense? then Request(s, o.content, true, t)
    else if s.spec.mode.Both? && o.canonicalize && action.Nothing? && node.Some? then
      Request(s, Holds(node.value), true, t)
    else s
  }

  function Attached(spec: Spec, o: Observation, node: Option<Checksum>, noValue: bool, refused: set<nat>): Session {
    var action := DecideInitial(spec, o.content, node, noValue);
    var t := Turn(Incomplete, 0.0, true, refused);
    var s := Acted(Fresh(spec, o, node), action, o, node, t);
    var s := if Stopped(s, t) then s else Filled(s, o, node, t);
    if Stopped(s, t) then s else Rewritten(s, action, o, node, t)
  }

  // ----- discipline -----

  predicate Numbered(b: Outbox) {
    && (b.pending.Some? ==> 0 < b.pending.value.number <= b.number)
    && (b.inFlight.Some? ==> 0 < b.inFlight.value.number <= b.number)
    && (b.pending.Some? && b.inFlight.Some? ==> b.inFlight.value.number < b.pending.value.number)
  }

  predicate Spaced(b: Outbox) {
    && (forall i, j :: 0 <= i < j < |b.sends| ==> b.sends[i].at + INTERVAL <= b.sends[j].at)
    && (b.sends != [] ==> b.sends[|b.sends| - 1].at <= b.lastDispatch)
  }

  /** Deliveries leave in the order they were asked for; one may leave again after an error. */
  predicate InOrder(b: Outbox) {
    && (forall i, j :: 0 <= i < j < |b.sends| ==> b.sends[i].delivery.number <= b.sends[j].delivery.number)
    && (b.sends != [] ==> b.sends[|b.sends| - 1].delivery.number <= b.number)
    && (b.sends != [] && b.pending.Some? ==> b.sends[|b.sends| - 1].delivery.number <= b.pending.value.number)
    && (b.inFlight.Some? ==> b.sends != [] && b.sends[|b.sends| - 1].delivery == b.inFlight.value)
  }

  /** Every unreleased lease is one of a delivery that waits or flies. */
  predicate Claimed(b: Outbox) { b.leases <= Named(b.pending) + Named(b.inFlight) }

  /** And no delivery waits or flies without its lease. */
  predicate Backed(b: Outbox) { b.leases == Named(b.pending) + Named(b.inFlight) }

  predicate Orderly(b: Outbox) { Numbered(b) && Spaced(b) && InOrder(b) && Claimed(b) }

  lemma AskedIsOrderly(b: Outbox, c: Checksum, expected: Fingerprint, force: bool)
    requires Orderly(b)
    ensures Orderly(Asked(b, c, expected, force))
    ensures Backed(b) ==> Backed(Asked(b, c, expected, force))
  {
  }

  lemma DeniedIsOrderly(b: Outbox)
    requires Orderly(b)
    ensures Orderly(Denied(b))
    ensures Backed(b) ==> (Backed(Denied(b)) <==> b.pending.None?)
  {
    if b.pending.Some? {
      assert b.pending.value.number !in Denied(b).leases;
    } else {
      assert Denied(b).leases == b.leases;
    }
  }

  lemma DiscardedIsOrderly(b: Outbox)
    requires Orderly(b)
    ensures Orderly(Discarded(b)) && (Backed(b) ==> Backed(Discarded(b)))
  {
  }

  lemma LaunchedIsOrderly(b: Outbox, now: real, expected: Fingerprint)
    requires Orderly(b) && b.pending.Some? && b.inFlight.None? && b.lastDispatch + INTERVAL <= now
    ensures Orderly(Launched(b, now, expected)) && (Backed(b) ==> Backed(Launched(b, now, expected)))
  {
  }

  lemma LandedIsOrderly(b: Outbox)
    requires Orderly(b)
    ensures Orderly(Landed(b)) && (Backed(b) ==> Backed(Landed(b)))
  {
  }

  lemma ReturnedIsOrderly(b: Outbox)
    requires Orderly(b) && b.pending.None?
    ensures Orderly(Returned(b)) && (Backed(b) ==> Backed(Returned(b)))
  {
  }

  // ----- every run of a session -----

  predicate Disciplined(s: Session) {
    && Orderly(s.out)
    && 1.0 <= s.retryDelay <= 60.0
    && (s.status.Active? ==> |s.reasserts| < THRESHOLD)
    && (s.status.Tripped? ==> |s.reasserts| >= THRESHOLD && s.out.pending.None?)
    && (s.status.Closing? ==> s.out.pending.None? && s.out.inFlight.None?)
  }

  datatype Event =
    | Observe(o: Observation, t: Turn)
    | Acknowledge(a: Ack, now: real, closing: bool)
    | EndTurn(t: Turn)
    | Flush(now: real)
    | Clear(t: Turn)
    | Detach

  /** A detached session is no longer in the table: no message finds it. */
  function Step(s: Session, e: Event): Session {
    if s.status.Closing? then s else
    match e
    case Observe(o, t) => Observed(s, o, t)
    case Acknowledge(a, now, closing) => Delivered(s, a, now, closing)
    case EndTurn(t) => AfterTurn(s, t)
    case Flush(now) => Flushed(s, now)
    case Clear(t) => Cleared(s, t)
    case Detach => Detached(s)
  }

  function Run(s: Session, events: seq<Event>): Session
    decreases |events|
  {
    if events == [] then s else Run(Step(s, events[0]), events[1..])
  }

  function Seen(s: Session, o: Observation): Session {
    s.(processed := o.ws, disk := o.content, fingerprint := o.fingerprint)
  }

  /** The step asks for a lease, is refused it, and has already given up that of the delivery
      that waits. */
  predicate Deprives(s: Session, e: Event) {
    && s.out.pending.Some? && s.status.Active?
    && match e {
         case Observe(o, t) =>
           var kind := Classify(o, s.processed, s.disk, s.fingerprint, s.out.inFlight);
           var seen := Seen(s, o);
           && !kind.Stale? && !Senses(seen, o, kind)
           && ((Canonicalizes(Sensed(seen, o, kind), o, kind) && !Grants(s, Canonical(o, kind, t.node), t))
               || (Reassert(s.spec.mode, t.node, kind) && |Recent(s.reasserts, t.now)| + 1 < THRESHOLD
                   && s.out.number + 1 in t.refused))
         case EndTurn(t) => Edited(s, t.node) && Holds(t.node.checksum) != s.disk && s.out.number + 1 in t.refused
         case Clear(t) => s.spec.Writes() && t.node.Complete? && s.out.number + 1 in t.refused
         case _ => false
       }
  }

  lemma RequestKeeps(s: Session, c: Content, force: bool, t: Turn)
    requires Disciplined(s)
    ensures Disciplined(Request(s, c, force, t)) && Request(s, c, force, t).processed == s.processed
    ensures Backed(s.out) ==> (Backed(Request(s, c, force, t).out) <==> Grants(s, c, t) || s.out.pending.None?)
  {
    if c.Holds? {
      AskedIsOrderly(s.out, c.checksum, s.fingerprint, force);
    }
    DeniedIsOrderly(s.out);
  }

  lemma DispatchKeeps(s: Session, now: real)
    requires Disciplined(s)
    ensures Disciplined(Dispatch(s, now)) && Dispatch(s, now).processed == s.processed
    ensures Backed(s.out) ==> Backed(Dispatch(s, now).out)
  {
    hide Orderly, Backed, Equivalent;
    DiscardedIsOrderly(s.out);
    if s.out.pending.Some? && s.out.inFlight.None? && s.out.lastDispatch + INTERVAL <= now {
      LaunchedIsOrderly(s.out, now, s.fingerprint);
    }
  }

  lemma SettledKeeps(s: Session, a: Ack, now: real)
    requires Disciplined(s) && !s.status.Closing?
    ensures Disciplined(Settled(s, a, now)) && s.processed <= Settled(s, a, now).processed
    ensures Backed(s.out) ==> Backed(Settled(s, a, now).out)
  {
    hide Orderly, Backed;
    LandedIsOrderly(s.out);
    if s.out.pending.None? {
      ReturnedIsOrderly(s.out);
    }
  }

  lemma ReassertedKeeps(s: Session, t: Turn)
    requires Disciplined(s) && s.status.Active? && t.node.Complete?
    ensures Disciplined(Reasserted(s, t)) && Reasserted(s, t).processed == s.processed
    ensures Backed(s.out) ==>
              (Backed(Reasserted(s, t).out) <==>
               !(|Recent(s.reasserts, t.now)| + 1 < THRESHOLD && s.out.number + 1 in t.refused && s.out.pending.Some?))
  {
    var again := s.(reasserts := Recent(s.reasserts, t.now) + [t.now]);
    DiscardedIsOrderly(s.out);
    if |again.reasserts| < THRESHOLD {
      RequestKeeps(again, Holds(t.node.checksum), false, t);
    }
  }

  lemma SensedKeeps(s: Session, o: Observation, kind: Kind)
    requires Disciplined(s)
    ensures Disciplined(Sensed(s, o, kind)) && Sensed(s, o, kind).processed == s.processed
    ensures Backed(s.out) ==> Backed(Sensed(s, o, kind).out)
    ensures Sensed(s, o, kind).out == if Senses(s, o, kind) then Discarded(s.out) else s.out
    ensures Sensed(s, o, kind).status == s.status && Sensed(s, o, kind).spec == s.spec
    ensures Sensed(s, o, kind).reasserts == s.reasserts
  {
    DiscardedIsOrderly(s.out);
  }

  lemma ObservedKeeps(s: Session, o: Observation, t: Turn)
    requires Disciplined(s) && !s.status.Closing?
    ensures Disciplined(Observed(s, o, t)) && s.processed <= Observed(s, o, t).processed
    ensures Backed(s.out) ==> (Backed(Observed(s, o, t).out) <==> !Deprives(s, Observe(o, t)))
  {
    hide Orderly, Backed;
    var kind := Classify(o, s.processed, s.disk, s.fingerprint, s.out.inFlight);
    if !kind.Stale? {
      var seen := Seen(s, o);
      var sensed := Sensed(seen, o, kind);
      var c := Canonical(o, kind, t.node);
      SensedKeeps(seen, o, kind);
      RequestKeeps(sensed, c, true, t);
      if sensed.status.Active? && t.node.Complete? && s.spec.mode.Writing? {
        ReassertedKeeps(sensed, t);
      }
    }
  }

  lemma AfterTurnKeeps(s: Session, t: Turn)
    requires Disciplined(s) && !s.status.Closing?
    ensures Disciplined(AfterTurn(s, t)) && AfterTurn(s, t).processed == s.processed
    ensures Backed(s.out) ==> (Backed(AfterTurn(s, t).out) <==> !Deprives(s, EndTurn(t)))
  {
    hide Orderly, Backed;
    DispatchKeeps(s, t.now);
    if Edited(s, t.node) {
      var synced := s.(lastSynced := Some(t.node.checksum));
      DispatchKeeps(synced, t.now);
      RequestKeeps(synced, Holds(t.node.checksum), false, t);
      DispatchKeeps(Request(synced, Holds(t.node.checksum), false, t), t.now);
    }
  }

  lemma ClearedKeeps(s: Session, t: Turn)
    requires Disciplined(s) && !s.status.Closing?
    ensures Disciplined(Cleared(s, t)) && Cleared(s, t).processed == s.processed
    ensures Backed(s.out) ==> (Backed(Cleared(s, t).out) <==> !Deprives(s, Clear(t)))
  {
    hide Orderly, Backed;
    var cleared := s.(error := false, status := Active, reasserts := [], retryAt := 0.0);
    if t.node.Complete? {
      RequestKeeps(cleared, Holds(t.node.checksum), false, t);
    }
  }

  /** What each step keeps. A delivery loses the lease that keeps its data exactly at a refused
      request over it. */
  lemma StepKeeps(s: Session, e: Event)
    requires Disciplined(s)
    ensures Disciplined(Step(s, e)) && s.processed <= Step(s, e).processed
    ensures Backed(s.out) ==> (Backed(Step(s, e).out) <==> !Deprives(s, e))
  {
    if !s.status.Closing? {
      match e {
        case Observe(o, t) => ObservedKeeps(s, o, t);
        case Acknowledge(a, now, closing) =>
          SettledKeeps(s, a, now);
          DispatchKeeps(Settled(s, a, now), now);
        case EndTurn(t) => AfterTurnKeeps(s, t);
        case Flush(now) => DispatchKeeps(s, now);
        case Clear(t) => ClearedKeeps(s, t);
        case Detach =>
          DiscardedIsOrderly(s.out);
          LandedIsOrderly(Discarded(s.out));
      }
    }
  }

  predicate NeverDeprived(s: Session, events: seq<Event>)
    decreases |events|
  {
    events == [] || (!Deprives(s, events[0]) && NeverDeprived(Step(s, events[0]), events[1..]))
  }

  /** Over every run: at most one delivery waits and one is out, the one out asked for first;
      dispatches leave in the order asked, two thirds of a second apart; no lease outlives its
      delivery; what has been processed never goes back. */
  lemma {:induction false} EveryRunIsDisciplined(s: Session, events: seq<Event>)
    requires Disciplined(s)
    ensures Disciplined(Run(s, events)) && s.processed <= Run(s, events).processed
    ensures Backed(s.out) && NeverDeprived(s, events) ==> Backed(Run(s, events).out)
    decreases |events|
  {
    if events != [] {
      StepKeeps(s, events[0]);
      EveryRunIsDisciplined(Step(s, events[0]), events[1..]);
    }
  }

  /** A detached session holds no lease. */
  lemma ClosedHoldsNothing(s: Session)
    requires Disciplined(s) && s.status.Closing?
    ensures s.out.leases == {}
  {
    assert s.out.leases <= {};
  }

  /** An attachment starts a disciplined session, with a lease for what waits unless the last
      request was refused over one that already waited. */
  lemma AttachingIsDisciplined(spec: Spec, o: Observation, node: Option<Checksum>, noValue: bool, refused: set<nat>)
    ensures var s := Attached(spec, o, node, noValue, refused);
            && Disciplined(s)
            && (Backed(s.out) <==> !(s.out.number > 0 && s.out.number in refused && s.out.pending.Some?))
            && s.processed == o.ws && s.fingerprint == o.fingerprint && s.disk == o.content && s.reasserts == []
  {
    var action := DecideInitial(spec, o.content, node, noValue);
    var t := Turn(Incomplete, 0.0, true, refused);
    var s := Fresh(spec, o, node);
    assert Orderly(s.out) && Backed(s.out);
    assert action.Sense? ==> o.content.Holds?;
    hide Orderly, Backed, Acted, Filled, Rewritten, DecideInitial;
    ActedKeeps(s, action, o, node, t);
    var acted := Acted(s, action, o, node, t);
    if !Stopped(acted, t) {
      FilledKeeps(acted, o, node, t);
      var filled := Filled(acted, o, node, t);
      if !Stopped(filled, t) {
        RewrittenKeeps(filled, action, o, node, t);
      }
    }
  }

  predicate SameReading(s: Session, r: Session) {
    r.processed == s.processed && r.fingerprint == s.fingerprint && r.disk == s.disk
  }

  predicate SameStart(s: Session, r: Session) { SameReading(s, r) && r.reasserts == s.reasserts }

  /** A session being attached: its leases are in order, but for those a refusal cost it. */
  predicate Attaching(s: Session, t: Turn) {
    Disciplined(s) && s.status.Active? && (Backed(s.out) <==> !(Stopped(s, t) && s.out.pending.Some?))
  }

  lemma RequestAttaches(s: Session, c: Content, force: bool, t: Turn)
    requires Attaching(s, t) && Backed(s.out) && c.Holds?
    ensures Attaching(Request(s, c, force, t), t) && SameStart(s, Request(s, c, force, t))
  {
    hide Orderly, Backed;
    RequestKeeps(s, c, force, t);
  }

  lemma FilledKeeps(s: Session, o: Observation, node: Option<Checksum>, t: Turn)
    requires Attaching(s, t) && Backed(s.out)
    ensures Attaching(Filled(s, o, node, t), t) && SameStart(s, Filled(s, o, node, t))
  {
    hide Attaching, Backed;
    RequestAttaches(s, Holds(NULL_CHECKSUM), true, t);
  }

  lemma RewrittenKeeps(s: Session, action: Action, o: Observation, node: Option<Checksum>, t: Turn)
    requires Attaching(s, t) && Backed(s.out) && (action.Sense? ==> o.content.Holds?)
    ensures Attaching(Rewritten(s, action, o, node, t), t) && SameStart(s, Rewritten(s, action, o, node, t))
  {
    hide Attaching, Backed;
    if action.Sense? {
      RequestAttaches(s, o.content, true, t);
    }
    if node.Some? {
      RequestAttaches(s, Holds(node.value), true, t);
    }
  }

  lemma ActedKeeps(s: Session, action: Action, o: Observation, node: Option<Checksum>, t: Turn)
    requires Disciplined(s) && s.status.Active? && Backed(s.out) && s.out.number == 0
    ensures var r := Acted(s, action, o, node, t); Attaching(r, t) && SameStart(s, r)
  {
    hide Orderly, Backed;
    DiscardedIsOrderly(s.out);
    RequestAttaches(TakeValue(s, NULL_CHECKSUM), Holds(NULL_CHECKSUM), true, t);
    if node.Some? {
      RequestAttaches(s, Holds(node.value), false, t);
    }
  }

  // ----- the flapping detector -----

  /** The reassert times a session keeps when they come in at `history`. */
  function Kept(history: seq<real>): seq<real> {
    if history == [] then []
    else Recent(Kept(history[..|history| - 1]), history[|history| - 1]) + [history[|history| - 1]]
  }

  predicate Forward(history: seq<real>) {
    forall i, j :: 0 <= i < j < |history| ==> history[i] <= history[j]
  }

  lemma {:induction false} RecentConcat(a: seq<real>, b: seq<real>, now: real)
    ensures Recent(a + b, now) == Recent(a, now) + Recent(b, now)
  {
    if a == [] {
      assert a + b == b;
    } else {
      var head := if now - a[0] <= WINDOW then [a[0]] else [];
      assert (a + b)[1..] == a[1..] + b;
      RecentConcat(a[1..], b, now);
      assert Recent(a, now) == head + Recent(a[1..], now);
      assert head + (Recent(a[1..], now) + Recent(b, now)) == (head + Recent(a[1..], now)) + Recent(b, now);
    }
  }

  lemma {:induction false} RecentTwice(a: seq<real>, early: real, late: real)
    requires early <= late
    ensures Recent(Recent(a, early), late) == Recent(a, late)
  {
    if a != [] {
      var head := if early - a[0] <= WINDOW then [a[0]] else [];
      RecentConcat(head, Recent(a[1..], early), late);
      RecentTwice(a[1..], early, late);
      assert Recent(head, late) == if late - a[0] <= WINDOW then [a[0]] else [];
    }
  }

  /** Forgetting old reasserts loses nothing that is still in the window. */
  lemma {:induction false} KeptIsTheWindow(history: seq<real>)
    requires history != [] && Forward(history)
    ensures Kept(history) == Recent(history, history[|history| - 1])
  {
    var n := |history| - 1;
    var now := history[n];
    var earlier := history[..n];
    assert history == earlier + [now];
    RecentConcat(earlier, [now], now);
    if earlier != [] {
      KeptIsTheWindow(earlier);
      RecentTwice(earlier, earlier[n - 1], now);
    }
  }

  /** The step writes the resource again because another changed it. */
  predicate Reasserting(s: Session, e: Event) {
    && e.Observe? && s.status.Active?
    && var kind := Classify(e.o, s.processed, s.disk, s.fingerprint, s.out.inFlight);
       !kind.Stale? && Reassert(s.spec.mode, e.t.node, kind)
  }

  predicate Clears(s: Session, e: Event) { e.Clear? && !s.status.Closing? }

  /** The times of the reasserts of a run, since the last clearing of the error. */
  function Times(s: Session, events: seq<Event>, times: seq<real>): seq<real>
    decreases |events|
  {
    if events == [] then times
    else
      var e := events[0];
      var next := if Clears(s, e) then [] else if Reasserting(s, e) then times + [e.t.now] else times;
      Times(Step(s, e), events[1..], next)
  }

  lemma RequestReasserts(s: Session, c: Content, force: bool, t: Turn)
    ensures Request(s, c, force, t).reasserts == s.reasserts && Request(s, c, force, t).status == s.status
    ensures Request(s, c, force, t).spec == s.spec
  {
  }

  lemma DispatchReasserts(s: Session, now: real)
    ensures Dispatch(s, now).reasserts == s.reasserts && Dispatch(s, now).status == s.status
  {
  }

  lemma ObservedReasserts(s: Session, o: Observation, t: Turn)
    ensures var r, e := Observed(s, o, t), Observe(o, t);
            if Reasserting(s, e) then
              && r.reasserts == Recent(s.reasserts, t.now) + [t.now]
              && r.status == (if |r.reasserts| >= THRESHOLD then Tripped else Active)
            else r.reasserts == s.reasserts && r.status == s.status
  {
    var kind := Classify(o, s.processed, s.disk, s.fingerprint, s.out.inFlight);
    ReactedReasserts(Sensed(Seen(s, o), o, kind), o, kind, t);
    hide Reacted, Classify;
  }

  lemma ReactedReasserts(s: Session, o: Observation, kind: Kind, t: Turn)
    ensures var r := Reacted(s, o, kind, t);
            if Reassert(s.spec.mode, t.node, kind) && s.status.Active? then
              && r.reasserts == Recent(s.reasserts, t.now) + [t.now]
              && r.status == (if |r.reasserts| >= THRESHOLD then Tripped else Active)
            else r.reasserts == s.reasserts && r.status == s.status
  {
    hide Request, Grants, Canonical;
    RequestReasserts(s, Canonical(o, kind, t.node), true, t);
    if t.node.Complete? {
      RequestReasserts(s.(reasserts := Recent(s.reasserts, t.now) + [t.now]), Holds(t.node.checksum), false, t);
    }
  }

  /** Only a clearing and a reassert touch what is kept, and only a reassert trips. */
  lemma StepReasserts(s: Session, e: Event)
    ensures var r := Step(s, e);
            && r.reasserts ==
                 (if Clears(s, e) then []
                  else if Reasserting(s, e) then Recent(s.reasserts, e.t.now) + [e.t.now] else s.reasserts)
            && (Reasserting(s, e) ==> r.status == if |r.reasserts| >= THRESHOLD then Tripped else Active)
            && (r.status.Tripped? && !Reasserting(s, e) ==> s.status.Tripped?)
  {
    hide Observed, Dispatch, Request, Grants;
    match e {
      case Observe(o, t) => ObservedReasserts(s, o, t);
      case Acknowledge(a, now, closing) => DispatchReasserts(Settled(s, a, now), now);
      case EndTurn(t) => AfterTurnReasserts(s, t);
      case Flush(now) => DispatchReasserts(s, now);
      case Clear(t) =>
        var cleared := s.(error := false, status := Active, reasserts := [], retryAt := 0.0);
        if t.node.Complete? {
          RequestReasserts(cleared, Holds(t.node.checksum), false, t);
        }
      case Detach =>
    }
  }

  lemma AfterTurnReasserts(s: Session, t: Turn)
    ensures AfterTurn(s, t).reasserts == s.reasserts && AfterTurn(s, t).status == s.status
  {
    hide Dispatch, Request, Grants;
    DispatchReasserts(s, t.now);
    if Edited(s, t.node) {
      var synced := s.(lastSynced := Some(t.node.checksum));
      var asked := Request(synced, Holds(t.node.checksum), false, t);
      DispatchReasserts(synced, t.now);
      RequestReasserts(synced, Holds(t.node.checksum), false, t);
      DispatchReasserts(asked, t.now);
    }
  }

  lemma {:induction false} RunKeeps(s: Session, events: seq<Event>, times: seq<real>)
    requires s.reasserts == Kept(times)
    ensures Run(s, events).reasserts == Kept(Times(s, events, times))
    decreases |events|
  {
    if events != [] {
      var e := events[0];
      StepReasserts(s, e);
      hide Step, Reasserting;
      if Reasserting(s, e) {
        assert (times + [e.t.now])[..|times|] == times;
        RunKeeps(Step(s, e), events[1..], times + [e.t.now]);
      } else {
        RunKeeps(Step(s, e), events[1..], if Clears(s, e) then [] else times);
      }
    }
  }

  /** Over every run, though old reasserts are forgotten: a session that reasserts trips exactly
      when this makes three, of all since its error was last cleared, within twenty seconds. */
  lemma DetectorSeesTheWholeWindow(s: Session, events: seq<Event>, e: Event)
    requires s.reasserts == [] && Reasserting(Run(s, events), e)
    requires Forward(Times(s, events, []) + [e.t.now])
    ensures Step(Run(s, events), e).status.Tripped? <==>
      |Recent(Times(s, events, []) + [e.t.now], e.t.now)| >= THRESHOLD
  {
    var times := Times(s, events, []);
    RunKeeps(s, events, []);
    StepReasserts(Run(s, events), e);
    assert (times + [e.t.now])[..|times|] == times;
    hide Step, Reasserting, Times, Run;
    KeptIsTheWindow(times + [e.t.now]);
  }

  // ----- a lost lease -----

  const SPEC := Spec(Both, CellWins, false, false, true)
  const EDIT := EndTurn(Turn(Complete(1), 0.0, true, {}))
  const REFUSED_EDIT := EndTurn(Turn(Complete(2), 0.1, true, {2}))

  /** An attached session whose first edit waits is refused the lease of a second: what waits, and
      later leaves, is a delivery whose data nothing keeps. */
  lemma RefusedEditDeprives()
    ensures var s := Attached(SPEC, Observation(0, None, Absent, false), None, true, {});
            var waiting, sent := Run(s, [EDIT, REFUSED_EDIT]), Run(s, [EDIT, REFUSED_EDIT, Flush(1.0)]);
            && waiting.out.pending == Some(Delivery(1, 1, None, false)) && waiting.out.leases == {}
            && sent.out.inFlight == Some(Delivery(1, 1, None, false)) && sent.out.leases == {}
  {
    var s := Attached(SPEC, Observation(0, None, Absent, false), None, true, {});
    var one := Step(s, EDIT);
    assert one.out.pending == Some(Delivery(1, 1, None, false)) && one.out.leases == {1};
    var two := Step(one, REFUSED_EDIT);
    var three := Step(two, Flush(1.0));
    assert two.out.pending == Some(Delivery(1, 1, None, false)) && two.out.leases == {};
    assert three.out.inFlight == Some(Delivery(1, 1, None, false)) && three.out.leases == {};
    assert [EDIT, REFUSED_EDIT][1..] == [REFUSED_EDIT] && [REFUSED_EDIT][1..] == [];
    assert [EDIT, REFUSED_EDIT, Flush(1.0)][1..] == [REFUSED_EDIT, Flush(1.0)]
      && [REFUSED_EDIT, Flush(1.0)][1..] == [Flush(1.0)];
    assert [Flush(1.0)][1..] == [];
    hide Step;
    assert Run(s, [EDIT, REFUSED_EDIT]) == Run(one, [REFUSED_EDIT]) == Run(two, []);
    assert Run(two, [Flush(1.0)]) == Run(three, []);
    assert Run(s, [EDIT, REFUSED_EDIT, Flush(1.0)]) == Run(one, [REFUSED_EDIT, Flush(1.0)]) == Run(two, [Flush(1.0)]);
  }

  class MountSession {
    const spec: Spec
    var disk: Content
    var fingerprint: Fingerprint
    var processed: nat
    var lastSynced: Option<Checksum>
    var pending: Option<Delivery>
    var inFlight: Option<Delivery>
    var number: nat
    var reasserts: seq<real>
    var senseError: bool
    var error: bool
    var status: Status
    var retryAt: real
    var retryDelay: real
    var lastDispatch: real
    var leases: set<nat>
    var effects: seq<Send>
    ghost var stirs: nat

    ghost function Box(): Outbox reads this {
      Outbox(pending, inFlight, number, lastDispatch, leases, effects)
    }

    ghost function View(): Session reads this {
      Session(spec, disk, fingerprint, processed, lastSynced, reasserts, senseError, error, status, retryAt,
        retryDelay, stirs, Box())
    }

    constructor (spec: Spec, o: Observation, node: Option<Checksum>)
      ensures View() == Fresh(spec, o, node) && Disciplined(View())
    {
      this.spec := spec;
      disk, fingerprint, processed, lastSynced := o.content, o.fingerprint, o.ws, node;
      pending, inFlight, number, reasserts := None, None, 0, [];
      senseError, error, status := false, false, Active;
      retryAt, retryDelay, lastDispatch, leases, effects, stirs := 0.0, 1.0, 0.0, {}, [], 0;
    }

    method DropPending()
      modifies this`pending, this`leases
      ensures View() == old(View()).(out := Discarded(old(Box())))
    {
      leases := leases - Named(pending);
      pending := None;
    }

    method Ask(c: Content, force: bool, t: Turn) returns (granted: bool)
      modifies this`number, this`leases, this`pending, this`lastSynced, this`retryAt, this`stirs
      ensures View() == Request(old(View()), c, force, t)
      ensures granted == Grants(old(View()), c, t)
    {
      if status != Active {
        return true;
      }
      number := number + 1;
      leases := leases - Named(pending);
      if !c.Holds? || number in t.refused {
        return false;
      }
      leases := leases + {number};
      pending := Some(Delivery(number, c.checksum, fingerprint, force));
      lastSynced := Some(c.checksum);
      retryAt := 0.0;
      stirs := stirs + 1;
      return true;
    }

    method SendPending(now: real)
      requires Disciplined(View())
      modifies this`pending, this`leases, this`inFlight, this`lastDispatch, this`effects
      ensures View() == Dispatch(old(View()), now) && Disciplined(View())
    {
      hide Orderly;
      DispatchKeeps(View(), now);
      if inFlight.Some? || pending.None? || status != Active || retryAt > now {
        return;
      }
      var delivery := pending.value;
      var equivalent := Holds(delivery.checksum) == disk
        || (delivery.checksum == NULL_CHECKSUM && disk.Absent? && !spec.share);
      if spec.directory && delivery.checksum == NULL_CHECKSUM {
        equivalent := true;
      }
      if equivalent && !delivery.force {
        DropPending();
        return;
      }
      if now < lastDispatch + INTERVAL {
        return;
      }
      pending := None;
      delivery := delivery.(expected := fingerprint);
      inFlight := Some(delivery);
      lastDispatch := now;
      effects := effects + [Send(now, delivery)];
    }

    method TakeSensed(c: Checksum)
      modifies this`pending, this`leases, this`lastSynced, this`senseError, this`stirs
      ensures View() == TakeValue(old(View()), c)
    {
      lastSynced, senseError := Some(c), false;
      DropPending();
      stirs := stirs + 1;
    }

    method Resend(t: Turn)
      requires t.node.Complete?
      modifies this
      ensures View() == Reasserted(old(View()), t)
    {
      reasserts := Recent(reasserts, t.now) + [t.now];
      if |reasserts| >= THRESHOLD {
        status, error := Tripped, true;
        DropPending();
      } else {
        var granted := Ask(Holds(t.node.checksum), false, t);
        if !granted {
          error := true;
        }
      }
    }

    method SenseFrom(o: Observation, kind: Kind)
      modifies this
      ensures View() == Sensed(old(View()), o, kind)
    {
      if kind.Foreign? && spec.Reads() && o.content.Holds? {
        TakeSensed(o.content.checksum);
      } else if kind.Rejected? && spec.Reads() {
        senseError := true;
      } else if kind.Gone? && spec.authority.Strict? {
        senseError := true;
      } else if kind.Gone? {
        senseError := false;
      } else if kind.Unchanged? && spec.Reads() && senseError && o.content.Holds? {
        TakeSensed(o.content.checksum);
      }
    }

    method Observe(o: Observation, t: Turn)
      requires Disciplined(View()) && !status.Closing?
      modifies this
      ensures View() == Observed(old(View()), o, t) && Disciplined(View())
    {
      hide Orderly;
      ObservedKeeps(View(), o, t);
      var kind := Classify(o, processed, disk, fingerprint, inFlight);
      if kind.Stale? {
        return;
      }
      processed, disk, fingerprint := o.ws, o.content, o.fingerprint;
      var taking := spec.Reads() && o.content.Holds? && (kind.Foreign? || (kind.Unchanged? && senseError));
      if taking && !t.writable {
        error := true;
        return;
      }
      SenseFrom(o, kind);
      React(o, kind, t);
    }

    method React(o: Observation, kind: Kind, t: Turn)
      modifies this
      ensures View() == Reacted(old(View()), o, kind, t)
    {
      if spec.mode.Both? && o.canonicalize && (kind.Foreign? || kind.Unchanged?) && !senseError {
        var granted := Ask(Canonical(o, kind, t.node), true, t);
        if !granted {
          error := true;
          return;
        }
      }
      if Reassert(spec.mode, t.node, kind) && status.Active? {
        Resend(t);
      }
    }

    method Land()
      modifies this`inFlight, this`leases
      ensures View() == old(View()).(out := Landed(old(Box())))
    {
      leases := leases - Named(inFlight);
      inFlight := None;
    }

    method Accept(a: Ack)
      requires a.kind.Written?
      modifies this
      ensures View() == Settled(old(View()), a, 0.0)
    {
      if a.ws > processed {
        disk, fingerprint, processed := a.content, a.fingerprint, a.ws;
      }
      if status != Tripped {
        error := false;
      }
      retryDelay := 1.0;
      Land();
    }

    method Settle(a: Ack, now: real)
      modifies this
      ensures View() == Settled(old(View()), a, now)
    {
      match a.kind {
        case Written =>
          Accept(a);
        case Refused =>
          error := true;
          if pending.None? && status.Active? {
            inFlight, pending := None, inFlight;
            retryAt := now + retryDelay;
            retryDelay := if retryDelay * 2.0 < 60.0 then retryDelay * 2.0 else 60.0;
          } else {
            Land();
          }
        case Conflicting =>
          Land();
      }
    }

    method Acknowledge(a: Ack, now: real, closing: bool)
      requires Disciplined(View()) && !status.Closing?
      modifies this
      ensures View() == Delivered(old(View()), a, now, closing) && Disciplined(View())
    {
      hide Orderly;
      if inFlight.None? || inFlight.value.number != a.number {
        return;
      }
      SettledKeeps(View(), a, now);
      Settle(a, now);
      if !closing || (spec.persistent && pending.Some? && !error) {
        SendPending(now);
      }
    }

    method EndTurn(t: Turn)
      requires Disciplined(View()) && !status.Closing?
      modifies this
      ensures View() == AfterTurn(old(View()), t) && (Disciplined(View()))
    {
      hide Orderly;
      AfterTurnKeeps(View(), t);
      if spec.Writes() && t.node.Complete? && lastSynced != Some(t.node.checksum) {
        lastSynced := Some(t.node.checksum);
        if Holds(t.node.checksum) != disk {
          RequestKeeps(View(), Holds(t.node.checksum), false, t);
          var granted := Ask(Holds(t.node.checksum), false, t);
          if !granted {
            return;
          }
        }
      }
      SendPending(t.now);
    }

    method ClearError(t: Turn)
      requires Disciplined(View()) && !status.Closing?
      modifies this
      ensures View() == Cleared(old(View()), t) && Disciplined(View())
    {
      hide Orderly;
      ClearedKeeps(View(), t);
      error, status, reasserts, retryAt := false, Active, [], 0.0;
      if spec.Writes() && t.node.Complete? {
        var granted := Ask(Holds(t.node.checksum), false, t);
      }
    }

    method Close()
      requires Disciplined(View())
      modifies this
      ensures View() == Detached(old(View())) && Disciplined(View()) && leases == {}
    {
      hide Orderly;
      StepKeeps(View(), Event.Detach);
      DiscardedIsOrderly(Box());
      LandedIsOrderly(Discarded(Box()));
      status := Closing;
      DropPending();
      Land();
      ClosedHoldsNothing(View());
    }
  }
}
