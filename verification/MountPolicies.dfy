/** Whose value counts: when a session attaches, when it observes its resource, and when a delivery is
    acknowledged. */
module MountPolicies {
  import opened Wrappers
  import opened MountSessions

  // ----- attaching -----

  /** The resource has a value that stands against the node's. */
  predicate Stands(o: Observation, noValue: bool) { !o.content.Absent? && !noValue }

  /** The node's value counts: it has one, and there is none that stands against it, or the resource is
      only written, or the cell has the authority. */
  predicate CellCounts(spec: Spec, o: Observation, node: Option<Checksum>, noValue: bool) {
    node.Some? && (!Stands(o, noValue) || spec.mode.Writing? || spec.authority.CellWins?)
  }

  /** The attachment cannot be made good: a required file is missing, or what is there is invalid and
      would count. */
  predicate Unsound(spec: Spec, o: Observation, node: Option<Checksum>, noValue: bool) {
    if node.None? then spec.Reads() && (o.content.Invalid? || (o.content.Absent? && spec.authority.Strict?))
    else
      || (o.content.Absent? && spec.authority.Strict?)
      || (Stands(o, noValue) && o.content.Invalid? && !CellCounts(spec, o, node, noValue))
  }

  /** The value that node and resource are to share: the node's where that counts, else the resource's,
      and null where a node without a value reads one that is not there. */
  function Shared(spec: Spec, o: Observation, node: Option<Checksum>, noValue: bool): Option<Checksum> {
    if node.Some? && (CellCounts(spec, o, node, noValue) || !o.content.Holds?) then node
    else if node.None? && !spec.Reads() then None
    else if node.None? && (noValue || !o.content.Holds?) then Some(NULL_CHECKSUM)
    else Some(o.content.checksum)
  }

  predicate Waits(s: Session, c: Checksum) { s.out.pending.Some? && s.out.pending.value.checksum == c }

  /** The node's value counts and may be written, and is not there yet; a null, only over a value. */
  predicate NeedsWrite(spec: Spec, o: Observation, node: Option<Checksum>, noValue: bool) {
    && CellCounts(spec, o, node, noValue) && spec.Writes()
    && (if Stands(o, noValue) then o.content != Holds(node.value) else node.value != NULL_CHECKSUM)
  }

  /** An attachment that is granted its leases comes to the shared value, or reports that it cannot. If
      something waits, it is that value. It does wait where it needs to be written; and only there, but
      for a resource to be made canonical and for a share, which is given a null. */
  lemma AttachingReconciles(spec: Spec, o: Observation, node: Option<Checksum>, noValue: bool)
    ensures var s := Attached(spec, o, node, noValue, {});
            && (s.senseError <==> Unsound(spec, o, node, noValue))
            && (!s.senseError ==> s.lastSynced == Shared(spec, o, node, noValue))
            && (s.out.pending.Some? ==> s.lastSynced.Some? && Waits(s, s.lastSynced.value))
            && (!s.senseError && NeedsWrite(spec, o, node, noValue) ==> Waits(s, node.value))
            && (!s.senseError && !(spec.mode.Both? && o.canonicalize) && !spec.share ==>
                  (s.out.pending.Some? <==> NeedsWrite(spec, o, node, noValue)))
  {
  }

  // ----- observing -----

  /** The message is newer than what was processed. */
  predicate News(s: Session, o: Observation) { o.ws > s.processed }

  /** What is observed is not what was observed last. */
  predicate Differs(s: Session, o: Observation) {
    o.content != s.disk || (!o.content.Holds? && o.fingerprint != s.fingerprint)
  }

  /** It is the value of the session's own delivery that is out. */
  predicate OwnDelivery(s: Session, o: Observation) {
    s.out.inFlight.Some? && o.content == Holds(s.out.inFlight.value.checksum)
  }

  /** The resource's value is to become the node's: it is another's new value, or one that is still
      there after an error. */
  predicate TakenIn(s: Session, o: Observation) {
    && News(s, o) && s.spec.Reads() && o.content.Holds?
    && if Differs(s, o) then !OwnDelivery(s, o) else s.senseError
  }

  /** A message that is not newer changes nothing. Any other is taken note of. */
  lemma ObservationIsNoted(s: Session, o: Observation, t: Turn)
    ensures var r := Observed(s, o, t);
            if !News(s, o) then r == s
            else r.processed == o.ws && r.disk == o.content && r.fingerprint == o.fingerprint
  {
  }

  predicate Rewrites(s: Session, o: Observation) { s.spec.mode.Both? && o.canonicalize }

  /** A session that reads takes in another's new value, and what waited goes; its own delivery, seen
      again, it does not, nor one that it may not write to the node. An invalid resource, and a required
      one that is gone, is an error till a value is taken in, or till it is gone where it may be. */
  lemma ReadingTakesIn(s: Session, o: Observation, t: Turn)
    requires s.spec.Reads() && !Rewrites(s, o) && News(s, o)
    ensures var r := Observed(s, o, t);
            if TakenIn(s, o) && t.writable then
              r.lastSynced == Some(o.content.checksum) && r.out.pending.None? && !r.senseError
            else
              && r.lastSynced == s.lastSynced && r.out == s.out
              && (TakenIn(s, o) ==> r.error)
              && r.senseError ==
                   if !TakenIn(s, o) && Differs(s, o) && o.content.Invalid? then true
                   else if Differs(s, o) && o.content.Absent? then s.spec.authority.Strict?
                   else s.senseError
  {
  }

  /** What is to be made canonical, after another's value was taken in or where nothing is amiss: that
      value, or else the node's. */
  lemma CanonicalIsRewritten(s: Session, o: Observation, t: Turn)
    requires Rewrites(s, o) && News(s, o) && s.status.Active? && o.content.Holds? && !OwnDelivery(s, o)
    requires t.writable && s.out.number + 1 !in t.refused && (Differs(s, o) || !s.senseError)
    ensures var r := Observed(s, o, t);
            var c := if !Differs(s, o) && t.node.Complete? then t.node.checksum else o.content.checksum;
            r.out.pending == Some(Delivery(s.out.number + 1, c, o.fingerprint, true)) && r.lastSynced == Some(c)
  {
  }

  /** A session that only writes asks for the node's value again whenever the resource was changed by
      another, unless it has done so twice within the window: then it trips, and nothing waits. */
  lemma WritingReasserts(s: Session, o: Observation, t: Turn)
    requires s.spec.mode.Writing? && News(s, o) && s.status.Active? && t.node.Complete?
    ensures var r, again := Observed(s, o, t), |Recent(s.reasserts, t.now)| + 1;
            if !Differs(s, o) || OwnDelivery(s, o) then r.out == s.out && r.reasserts == s.reasserts
            else if again >= 3 then r.status.Tripped? && r.out.pending.None? && r.error
            else if s.out.number + 1 in t.refused then r.error && r.out.pending == s.out.pending
            else r.out.pending == Some(Delivery(s.out.number + 1, t.node.checksum, o.fingerprint, false))
  {
    var kind := Classify(o, s.processed, s.disk, s.fingerprint, s.out.inFlight);
    var sensed := Sensed(Seen(s, o), o, kind);
    assert Observed(s, o, t) == if Reassert(s.spec.mode, t.node, kind) then Reasserted(sensed, t) else sensed by {
      hide Reasserted, Sensed;
      assert sensed.spec == s.spec && sensed.status == s.status by { SensedShape(Seen(s, o), o, kind); }
    }
    hide Recent, Observed, Reacted;
  }

  lemma SensedShape(s: Session, o: Observation, kind: Kind)
    ensures Sensed(s, o, kind).spec == s.spec && Sensed(s, o, kind).status == s.status
  {
  }

  // ----- acknowledging -----

  predicate Names(s: Session, a: Ack) { s.out.inFlight.Some? && s.out.inFlight.value.number == a.number }

  function Twice(delay: real): real { if delay * 2.0 <= 60.0 then delay * 2.0 else 60.0 }

  /** A written delivery is over: its version is taken note of, if it is newer, the error is cleared
      unless the session has tripped, and the delay is a second again. A failed one waits again, for the
      delay, which doubles up to a minute, unless another waits already. A conflicting one is dropped. */
  lemma AcknowledgedSettles(s: Session, a: Ack, now: real)
    requires Disciplined(s) && s.out.inFlight.Some? && Names(s, a)
    ensures var r := Settled(s, a, now);
            match a.kind
            case Written =>
              && r.out.inFlight.None? && r.out.pending == s.out.pending && r.retryDelay == 1.0
              && (if a.ws > s.processed then
                    r.processed == a.ws && r.disk == a.content && r.fingerprint == a.fingerprint
                  else r.processed == s.processed && r.disk == s.disk && r.fingerprint == s.fingerprint)
              && (r.error <==> s.status.Tripped? && s.error)
            case Refused =>
              && r.out.inFlight.None? && r.error && r.disk == s.disk && r.processed == s.processed
              && (if s.out.pending.None? && s.status.Active? then
                    r.out.pending == s.out.inFlight && r.retryAt == now + s.retryDelay
                      && r.retryDelay == Twice(s.retryDelay)
                  else r.out.pending == s.out.pending && r.retryDelay == s.retryDelay)
            case Conflicting =>
              r.out.inFlight.None? && r.out.pending == s.out.pending && r.error == s.error && r.disk == s.disk
  {
  }

  /** What leaves, leaves an active session with nothing out, after the retry and the interval are over,
      and is what waited: unless that is no change, which is dropped. */
  lemma DispatchSends(s: Session, now: real)
    ensures var r, due := Dispatch(s, now), s.out.inFlight.None? && s.status.Active? && s.retryAt <= now;
            && (|r.out.sends| > |s.out.sends| <==>
                  && due && s.out.pending.Some? && s.out.lastDispatch + INTERVAL <= now
                  && (s.out.pending.value.force || !NoChange(s, s.out.pending.value.checksum)))
            && (|r.out.sends| > |s.out.sends| ==>
                  r.out.inFlight == Some(s.out.pending.value.(expected := s.fingerprint)) && r.out.pending.None?)
            && (r.out.pending.None? && s.out.pending.Some? && r.out.inFlight.None? <==>
                  && due && s.out.pending.Some? && !s.out.pending.value.force
                  && NoChange(s, s.out.pending.value.checksum))
  {
  }

  /** The value is on disk; or it is a null, of which there is nothing to write. */
  predicate NoChange(s: Session, c: Checksum) {
    s.disk == Holds(c) || (c == NULL_CHECKSUM && (s.spec.directory || (s.disk.Absent? && !s.spec.share)))
  }

  /** While the Context closes, only what already waits is sent, of a persistent session without an error. */
  lemma ClosingFlushes(s: Session, now: real)
    ensures Flushed(s, now) != s ==> s.spec.persistent && s.out.pending.Some? && !s.error
    ensures s.spec.persistent && !s.error ==> Flushed(s, now) == Dispatch(s, now)
  {
  }

  /** A cleared session is active again, without an error, and asks for the node's value. */
  lemma ClearingAsks(s: Session, t: Turn)
    ensures var r := Cleared(s, t);
            && r.status.Active? && !r.error && r.reasserts == []
            && (s.spec.Writes() && t.node.Complete? && s.out.number + 1 !in t.refused ==>
                  r.out.pending == Some(Delivery(s.out.number + 1, t.node.checksum, s.fingerprint, false)))
            && (!(s.spec.Writes() && t.node.Complete?) ==> r.out == s.out)
  {
  }
}
