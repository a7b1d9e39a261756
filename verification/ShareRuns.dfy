/** Every run of the share registry. */
module ShareRuns {
  import opened Wrappers
  import opened ShareRegistry
  import opened ShareTables
  import opened ShareKeys
  import opened ShareSteps

  datatype Event =
    | Reserving(a: Ask, now: real)
    | Committing(batch: seq<Id>, now: real)
    | Unregistering(id: Id)
    | Activating(id: Id)
    | Reattaching(id: Id)
    | Delivering(id: Id, value: Option<Checksum>, expected: Option<nat>)
    | Putting(id: Id, c: Checksum, expected: Option<nat>)
    | Holding(id: Id)
    | BeginningClose(ns: Name, owner: Owner)
    | HoldingAll(ns: Name, owner: Owner, deadline: real)
    | Expiring(ns: Name, now: real, order: seq<Id>)
    | Closing(ns: Name, owner: Owner, order: seq<Id>)

  /** A reservation at once supplants nothing; only what is published is activated; and the orders
      list what their operation walks over. */
  ghost predicate Possible(s: State, e: Event) {
    match e
    case Reserving(a, _) => a.staged || a.supplants == {}
    case Activating(id) => id in s.regs ==> !s.regs[id].staged
    case Expiring(ns, now, order) => forall id: Id :: id in order <==> id in s.regs && Lapsed(s, id, ns, now)
    case Closing(ns, owner, order) => forall k :: k in s.keyed && k.ns == ns ==> s.keyed[k] in order
    case _ => true
  }

  function Next(s: State, e: Event): State {
    match e
    case Reserving(a, now) => Reserve(s, a, now).state
    case Committing(batch, now) => Commit(s, batch, now).state
    case Unregistering(id) => Remove(s, id)
    case Activating(id) => Activated(s, id)
    case Reattaching(id) => Reattached(s, id)
    case Delivering(id, c, expected) => After(s, Deliver(s, id, c, expected))
    case Putting(id, c, expected) => After(s, Put(s, id, c, expected))
    case Holding(id) => HoldOne(s, id)
    case BeginningClose(ns, owner) => BeginClose(s, ns, owner)
    case HoldingAll(ns, owner, deadline) => HoldNamespace(s, ns, owner, deadline)
    case Expiring(ns, now, order) => Expire(s, ns, now, order)
    case Closing(ns, owner, order) => CloseNamespace(s, ns, owner, order)
  }

  lemma ReserveIsSound(s: State, a: Ask, now: real)
    requires Sound(s) && (a.staged || a.supplants == {})
    ensures Sound(Reserve(s, a, now).state) && Follows(s, Reserve(s, a, now).state)
  {
    hide Sound, Follows;
    FollowsItself(s);
    if Reserve(s, a, now).Done? {
      if a.staged {
        StagedReserveKeeps(s, a, now);
      } else {
        DirectReserveKeeps(s, a, now);
      }
    } else {
      assert Reserve(s, a, now).state == s;
    }
  }

  lemma CommitIsSound(s: State, batch: seq<Id>, now: real)
    requires Sound(s)
    ensures Sound(Commit(s, batch, now).state) && Follows(s, Commit(s, batch, now).state)
  {
    hide Commit, Sound, Follows;
    CommitIsAtomic(s, batch, now);
    if Commit(s, batch, now).Raised? {
      TakenIsSound(s, Commit(s, batch, now).state);
    }
  }

  lemma ActiveIsOpen(s: State, id: Id)
    requires Sound(s) && id in s.regs && s.regs[id].active
    ensures Open(s, id)
  {
    hide Coherent, Marked;
    assert Drafts(s);
  }

  lemma QuietIsAlike(s: State, e: Event)
    requires Possible(s, e) && (e.Activating? || e.Reattaching? || e.Holding? || e.BeginningClose? || e.HoldingAll?)
    ensures Alike(s, Next(s, e))
  {
    hide Alike, Activated, Reattached, HoldOne, BeginClose, HoldNamespace;
    match e {
      case HoldingAll(ns, owner, deadline) => HeldAreAlike(s, ns, owner, deadline);
      case Activating(id) => ActivatedIsAlike(s, id);
      case Reattaching(id) => ReattachedIsAlike(s, id);
      case Holding(id) => HeldIsAlike(s, id);
      case BeginningClose(ns, owner) => ClosingIsAlike(s, ns, owner);
    }
  }

  lemma ActivatedIsAlike(s: State, id: Id)
    requires id in s.regs ==> !s.regs[id].staged
    ensures Alike(s, Activated(s, id))
  {
  }

  lemma ReattachedIsAlike(s: State, id: Id)
    ensures Alike(s, Reattached(s, id))
  {
  }

  lemma HeldIsAlike(s: State, id: Id)
    ensures Alike(s, HoldOne(s, id))
  {
  }

  lemma ClosingIsAlike(s: State, ns: Name, owner: Owner)
    ensures Alike(s, BeginClose(s, ns, owner))
  {
  }

  /** Each step keeps the routes and the markers sound, and lets no marker drop or be used for
      another value. */
  lemma NextIsSound(s: State, e: Event)
    requires Sound(s) && Possible(s, e)
    ensures Sound(Next(s, e)) && Follows(s, Next(s, e))
  {
    hide Sound, Follows, Reserve, Commit, Remove, Wrote, Expire, CloseNamespace, Activated, Reattached, HoldOne,
      BeginClose, HoldNamespace;
    FollowsItself(s);
    match e {
      case Reserving(a, now) => ReserveIsSound(s, a, now);
      case Committing(batch, now) => CommitIsSound(s, batch, now);
      case Unregistering(id) =>
        RemoveAllIsSound(s, [id]);
      case Delivering(id, c, expected) =>
        if Deliver(s, id, c, expected).Installed? {
          ActiveIsOpen(s, id);
          WroteIsSound(s, id, c);
        }
      case Putting(id, c, expected) =>
        if Put(s, id, c, expected).Installed? {
          ActiveIsOpen(s, id);
          WroteIsSound(s, id, Some(c));
        }
      case Expiring(ns, now, order) => ExpireIsSound(s, ns, now, order);
      case Closing(ns, owner, order) => CloseIsSound(s, ns, owner, order);
      case _ =>
        QuietIsAlike(s, e);
        AlikeIsSound(s, Next(s, e));
    }
  }

  ghost predicate Plays(s: State, events: seq<Event>)
    decreases |events|
  {
    events == [] || (Possible(s, events[0]) && Plays(Next(s, events[0]), events[1..]))
  }

  function Played(s: State, events: seq<Event>): State
    decreases |events|
  {
    if events == [] then s else Played(Next(s, events[0]), events[1..])
  }

  lemma EmptyIsSound()
    ensures Sound(EMPTY)
  {
  }

  /** Over every run the registry is sound, published markers never drop, and no marker is ever
      published with two values. */
  lemma {:induction false} EveryRunIsSound(s: State, events: seq<Event>)
    requires Sound(s) && Plays(s, events)
    ensures Sound(Played(s, events)) && Follows(s, Played(s, events))
    decreases |events|
  {
    hide Sound, Follows, Next, Possible;
    if events == [] {
      FollowsItself(s);
    } else {
      NextIsSound(s, events[0]);
      EveryRunIsSound(Next(s, events[0]), events[1..]);
      FollowsOn(s, Next(s, events[0]), Played(s, events));
    }
  }

  // ----- the record table -----

  ghost function Orphaning(s: State, e: Event): set<Id> {
    match e
    case Reserving(a, now) => Orphaned(s, a, now)
    case _ => {}
  }

  ghost function OrphanedBy(s: State, events: seq<Event>): set<Id>
    decreases |events|
  {
    if events == [] then {} else Orphaning(s, events[0]) + OrphanedBy(Next(s, events[0]), events[1..])
  }

  lemma CommitKeepsKeys(s: State, batch: seq<Id>, now: real, strays: set<Id>)
    requires Sound(s) && AllKeyed(s, strays)
    ensures AllKeyed(Commit(s, batch, now).state, strays)
  {
    hide Commit, Sound, Follows, Conflict;
    CommitIsAtomic(s, batch, now);
    var after := Commit(s, batch, now).state;
    if Commit(s, batch, now).Raised? {
      SameOpen(s, after);
      SameKeyed(s, after, strays);
    } else {
      assert Strays(s) <= strays;
      MoreStrays(after, Strays(s), strays);
    }
  }

  lemma RemovesKeepKeys(s: State, ids: seq<Id>, strays: set<Id>)
    requires AllKeyed(s, strays)
    ensures AllKeyed(RemoveAll(s, ids), strays)
  {
    hide AllKeyed, RemoveAll;
    RemoveAllKeepsKeys(s, ids, strays);
    MoreStrays(RemoveAll(s, ids), strays - Ids(ids), strays);
  }

  lemma ExpireKeepsKeys(s: State, ns: Name, now: real, order: seq<Id>, strays: set<Id>)
    requires AllKeyed(s, strays)
    ensures AllKeyed(Expire(s, ns, now, order), strays)
  {
    hide AllKeyed, RemoveAll, Unkeyed;
    if ns in s.namespaces {
      var mid := RemoveAll(s, order);
      RemovesKeepKeys(s, order, strays);
      SameOpen(mid, Expire(s, ns, now, order));
      SameKeyed(mid, Expire(s, ns, now, order), strays);
    }
  }

  lemma CloseKeepsKeys(s: State, ns: Name, owner: Owner, order: seq<Id>, strays: set<Id>)
    requires AllKeyed(s, strays)
    ensures AllKeyed(CloseNamespace(s, ns, owner, order), strays)
  {
    hide AllKeyed, RemoveAll, StillServes;
    if Owns(s, ns, owner) && !StillServes(s, ns, owner) {
      var mid := RemoveAll(s, order);
      RemovesKeepKeys(s, order, strays);
      SameOpen(mid, CloseNamespace(s, ns, owner, order));
      SameKeyed(mid, CloseNamespace(s, ns, owner, order), strays);
    }
  }

  lemma AlikeKeepsKeys(s: State, after: State, strays: set<Id>)
    requires AllKeyed(s, strays) && Alike(s, after)
    ensures AllKeyed(after, strays)
  {
    forall x: Id | Open(after, x)
      ensures Open(s, x) && x in s.regs && x in after.regs && after.regs[x].key == s.regs[x].key {
      assert SameStanding(s.regs[x], after.regs[x]);
    }
    hide AllKeyed, Open;
    SameKeyed(s, after, strays);
  }

  lemma WroteKeepsKeys(s: State, id: Id, c: Option<Checksum>, strays: set<Id>)
    requires AllKeyed(s, strays) && id in s.regs
    ensures AllKeyed(Wrote(s, id, c), strays)
  {
    WroteShape(s, id, c);
    hide Wrote;
    SameKeyed(s, Wrote(s, id, c), strays);
  }

  /** A step puts no share out of the record table but the one that its reservation orphans. */
  lemma NextKeepsKeys(s: State, e: Event, strays: set<Id>)
    requires Sound(s) && Possible(s, e) && AllKeyed(s, strays)
    ensures AllKeyed(Next(s, e), strays + Orphaning(s, e))
  {
    hide Sound, AllKeyed, Reserve, Commit, Remove, Wrote, Expire, CloseNamespace, Orphans, Alike;
    match e {
      case Reserving(a, now) => ReserveKeepsKeys(s, a, now, strays);
      case Committing(batch, now) => CommitKeepsKeys(s, batch, now, strays);
      case Unregistering(id) => RemovesKeepKeys(s, [id], strays);
      case Delivering(id, c, expected) =>
        if Deliver(s, id, c, expected).Installed? {
          WroteKeepsKeys(s, id, c, strays);
        }
      case Putting(id, c, expected) =>
        if Put(s, id, c, expected).Installed? {
          WroteKeepsKeys(s, id, Some(c), strays);
        }
      case Expiring(ns, now, order) => ExpireKeepsKeys(s, ns, now, order, strays);
      case Closing(ns, owner, order) => CloseKeepsKeys(s, ns, owner, order, strays);
      case _ =>
        QuietIsAlike(s, e);
        AlikeKeepsKeys(s, Next(s, e), strays);
    }
    assert !e.Reserving? ==> strays + Orphaning(s, e) == strays;
  }

  lemma ReserveKeepsKeys(s: State, a: Ask, now: real, strays: set<Id>)
    requires Sound(s) && AllKeyed(s, strays) && (a.staged || a.supplants == {})
    ensures AllKeyed(Reserve(s, a, now).state, strays + Orphaned(s, a, now))
  {
    hide Sound, AllKeyed, Orphans, Conflict;
    if Reserve(s, a, now).Done? && !a.staged {
      DirectReserveKeepsKeys(s, a, now, strays);
    } else {
      assert strays + Orphaned(s, a, now) == strays;
      if Reserve(s, a, now).Done? {
        StagedReserveKeepsKeys(s, a, now, strays);
      } else {
        assert Reserve(s, a, now).state == s;
      }
    }
  }

  lemma {:induction false} EveryRunKeepsKeys(s: State, events: seq<Event>, strays: set<Id>)
    requires Sound(s) && Plays(s, events) && AllKeyed(s, strays)
    ensures AllKeyed(Played(s, events), strays + OrphanedBy(s, events))
    decreases |events|
  {
    hide Sound, AllKeyed, Next, Possible, Orphaning;
    if events == [] {
      assert strays + OrphanedBy(s, events) == strays;
    } else {
      var first := Orphaning(s, events[0]);
      NextIsSound(s, events[0]);
      NextKeepsKeys(s, events[0], strays);
      EveryRunKeepsKeys(Next(s, events[0]), events[1..], strays + first);
      assert strays + first + OrphanedBy(Next(s, events[0]), events[1..]) == strays + OrphanedBy(s, events);
    }
  }

  /** At any point of any run, what the route tables name is exactly what is open and published,
      and no two share a route. So it is with the record table and with keys, but for those shares
      that a reservation of the run has orphaned. */
  lemma TablesAgree(events: seq<Event>)
    requires Plays(EMPTY, events)
    ensures var s, orphaned := Played(EMPTY, events), OrphanedBy(EMPTY, events);
            && (forall id: Id :: Open(s, id) <==> id in s.top.Values + s.nested.Values)
            && (forall id: Id :: id in s.keyed.Values ==> Open(s, id))
            && (forall id: Id :: Open(s, id) && id !in orphaned ==> id in s.keyed.Values)
            && (forall id, other :: Open(s, id) && Open(s, other) && id != other ==>
                  RouteAt(s, id) != RouteAt(s, other))
            && (forall id, other ::
                  Open(s, id) && Open(s, other) && id != other && s.regs[id].key == s.regs[other].key ==>
                  id in orphaned || other in orphaned)
  {
    EmptyIsSound();
    EveryRunIsSound(EMPTY, events);
    EveryRunKeepsKeys(EMPTY, events, {});
    var s, orphaned := Played(EMPTY, events), OrphanedBy(EMPTY, events);
    assert {} + orphaned == orphaned;
    hide Played, OrphanedBy;
    forall id: Id | Open(s, id) ensures id in s.top.Values + s.nested.Values && IsRouted(s, id) {
      assert IsRouted(s, id);
    }
    forall id: Id | Open(s, id) && id !in orphaned ensures id in s.keyed.Values && IsKeyed(s, id) {
      assert IsKeyed(s, id);
    }
    forall id: Id | id in s.top.Values + s.nested.Values ensures Open(s, id) {
      if id in s.top.Values {
        var p :| p in s.top && s.top[p] == id;
        assert Answering(s, AtTop(p)).Some?;
      } else {
        var k :| k in s.nested && s.nested[k] == id;
        assert Answering(s, Within(k)).Some?;
      }
    }
  }

  /** A conditional write names a marker that was published with a value at its route. However long
      ago that was, if the write is accepted it replaces that very value, or none. */
  lemma ConditionalWriteReplacesTheNamed(before: seq<Event>, after: seq<Event>, m: Mark, id: Id, c: Checksum)
    requires Plays(EMPTY, before) && Plays(Played(EMPTY, before), after)
    requires var early, late := Played(EMPTY, before), Played(Played(EMPTY, before), after);
             && m in early.seen && id in late.regs && RouteAt(late, id) == m.route
             && Put(late, id, c, Some(m.marker)).Installed?
    ensures var early, late := Played(EMPTY, before), Played(Played(EMPTY, before), after);
            late.regs[id].checksum.Some? ==> late.regs[id].checksum == Some(early.seen[m])
  {
    var early := Played(EMPTY, before);
    var late := Played(early, after);
    EmptyIsSound();
    EveryRunIsSound(EMPTY, before);
    EveryRunIsSound(early, after);
    hide Played, Sound, Put;
    assert m in late.seen && late.seen[m] == early.seen[m];
    AcceptedIsNamed(late, id, c, m);
  }

  lemma AcceptedIsNamed(s: State, id: Id, c: Checksum, m: Mark)
    requires Sound(s) && m in s.seen && id in s.regs && RouteAt(s, id) == m.route
    requires Put(s, id, c, Some(m.marker)).Installed?
    ensures s.regs[id].checksum.Some? ==> s.regs[id].checksum == Some(s.seen[m])
  {
    ActiveIsOpen(s, id);
    hide Wrote;
    assert IsRouted(s, id) && Above(s, m.route);
  }

  // ----- who may be displaced -----

  /** The reservation says that it supplants `x`, or `x` is held where its owner may rejoin. */
  predicate Yields(s: State, x: Id, taker: Id, now: real) {
    && taker in s.regs && x in s.regs
    && (x in s.regs[taker].supplants
          || (s.regs[x].held && MayRejoin(s, s.regs[taker].key.ns, s.regs[taker].owner, now)))
  }

  /** Installing one reservation leaves the entries of another that does not collide with it. */
  lemma EntriesStay(s: State, id: Id, other: Id)
    requires id in s.regs && other in s.regs && !Collide(s.regs[id], s.regs[other])
    ensures DisplacedSet(Install(s, id), s.regs[other].key, s.regs[other].top) ==
      DisplacedSet(s, s.regs[other].key, s.regs[other].top)
  {
    ReadyShape(s, id);
    var reg := Ready(s, id);
    ListedAnswers(s, id, reg);
    var listed, after, o := Listed(s, id, reg), Install(s, id), s.regs[other];
    assert after.keyed == s.keyed[reg.key := id] && after.top == listed.top && after.nested == listed.nested;
    AnswersAlike(listed, after, RouteOf(o.key, o.top));
    hide Install, Ready, Listed, Answering;
  }

  /** What a batch displaces stood, from the start, at the key or the route of one of it. */
  lemma {:induction false} DisplacedFromTheStart(s: State, batch: seq<Id>, leaving: set<Id>, newer: set<Id>, x: Id)
    requires Linked(s, leaving, newer) && Marked(s) && Installable(s, batch, newer) && x in Displacing(s, batch)
    requires forall y :: y in leaving ==> Open(s, y)
    requires forall i :: 0 <= i < |batch| ==> batch[i] !in newer
    ensures exists i ::
              0 <= i < |batch| && batch[i] in s.regs
              && x in DisplacedSet(s, s.regs[batch[i]].key, s.regs[batch[i]].top)
    decreases |batch|
  {
    var id, after, rest := batch[0], Install(s, batch[0]), batch[1..];
    var gone := DisplacedSet(s, s.regs[id].key, s.regs[id].top);
    if x !in gone {
      DisplacedLater(s, batch, leaving, newer, x);
      hide *;
      DisplacedFromTheStart(after, rest, leaving + gone, newer + {id}, x);
      var i :| 0 <= i < |rest| && rest[i] in after.regs
        && x in DisplacedSet(after, after.regs[rest[i]].key, after.regs[rest[i]].top);
      EntriesWereThere(s, batch, newer, i, x);
    }
  }

  /** What the first of a batch does not displace, the others do. */
  lemma DisplacedLater(s: State, batch: seq<Id>, leaving: set<Id>, newer: set<Id>, x: Id)
    requires Linked(s, leaving, newer) && Marked(s) && batch != [] && Installable(s, batch, newer)
    requires x in Displacing(s, batch)
    requires forall y :: y in leaving ==> Open(s, y)
    requires forall i :: 0 <= i < |batch| ==> batch[i] !in newer
    requires x !in DisplacedSet(s, s.regs[batch[0]].key, s.regs[batch[0]].top)
    ensures var id, after, rest := batch[0], Install(s, batch[0]), batch[1..];
            var gone := DisplacedSet(s, s.regs[id].key, s.regs[id].top);
            && Linked(after, leaving + gone, newer + {id}) && Marked(after) && Installable(after, rest, newer + {id})
            && x in Displacing(after, rest) && (forall y :: y in leaving + gone ==> Open(after, y))
            && forall i :: 0 <= i < |rest| ==> rest[i] !in newer + {id}
  {
    var id, after, rest := batch[0], Install(s, batch[0]), batch[1..];
    var gone := DisplacedSet(s, s.regs[id].key, s.regs[id].top);
    hide Linked, Marked, DisplacedSet, Install, Displacing;
    NoNewerDisplaced(s, id, newer, leaving);
    DisplacingStep(s, batch, leaving, newer);
    InstallKeeps(s, id, leaving, newer);
    RestInstallable(s, batch, newer);
    GoneAreOpen(s, id, leaving, newer);
    NotInstalledYet(s, batch);
    InIds(x, Displacing(s, batch), Displacing(after, rest), gone);
  }

  lemma EntriesWereThere(s: State, batch: seq<Id>, newer: set<Id>, i: nat, x: Id)
    requires Installable(s, batch, newer) && i + 1 < |batch| && batch[0] in s.regs
    requires var after := Install(s, batch[0]);
             batch[i + 1] in after.regs
               && x in DisplacedSet(after, after.regs[batch[i + 1]].key, after.regs[batch[i + 1]].top)
    ensures batch[i + 1] in s.regs && x in DisplacedSet(s, s.regs[batch[i + 1]].key, s.regs[batch[i + 1]].top)
  {
    assert Clear(s, batch[0], batch[i + 1]);
    CollidesWithItself(s, batch[0]);
    InstallRows(s, batch[0]);
    hide Install, DisplacedSet;
    EntriesStay(s, batch[0], batch[i + 1]);
  }

  lemma InIds(x: Id, all: seq<Id>, rest: seq<Id>, gone: set<Id>)
    requires x in all && Ids(all) == gone + Ids(rest) && x !in gone
    ensures x in rest
  {
    assert x in Ids(all);
  }

  /** A commit closes no share against its owner's will: each one that goes was supplanted by a
      reservation of the batch, or was held where that reservation's owner may rejoin. */
  lemma CommitDisplacesByRight(s: State, batch: seq<Id>, now: real, x: Id)
    requires Sound(s) && Commit(s, batch, now).Done? && Open(s, x) && !Open(Commit(s, batch, now).state, x)
    ensures exists i :: 0 <= i < |batch| && Yields(s, x, batch[i], now)
  {
    CommitIsAtomic(s, batch, now);
    TakingTouchesOwners(s, batch, now);
    var t := TakeNamespaces(s, batch, now).state;
    assert Commit(s, batch, now).state == RemoveAll(InstallAll(t, batch), Displacing(t, batch));
    hide Commit, Conflict, Follows, TakeNamespaces;
    assert x in s.regs;
    ClosedWasDisplaced(s, t, batch, x);
    StartsInstallable(s, t, batch);
    hide Sound, Linked, Marked, Installable, Displacing, InstallAll, RemoveAll, Disjoint;
    DisplacedFromTheStart(t, batch, {}, {}, x);
    var i :| 0 <= i < |batch| && batch[i] in t.regs && x in DisplacedSet(t, t.regs[batch[i]].key, t.regs[batch[i]].top);
    SameEntries(s, t, t.regs[batch[i]].key, t.regs[batch[i]].top);
    UnblockedYields(s, batch[i], x, Ids(batch), now);
  }

  lemma SameEntries(s: State, t: State, key: Key, top: bool)
    requires SameTables(s, t)
    ensures DisplacedSet(t, key, top) == DisplacedSet(s, key, top) && t.regs == s.regs
  {
    AnswersAlike(s, t, RouteOf(key, top));
    hide Answering;
  }

  lemma StartsInstallable(s: State, t: State, batch: seq<Id>)
    requires Sound(s) && SameTables(s, t) && Disjoint(s, batch)
    requires forall i :: 0 <= i < |batch| ==> StagedHere(s, batch[i]) && s.regs[batch[i]].key.ns in s.namespaces
    ensures Linked(t, {}, {}) && Marked(t) && Installable(t, batch, {})
  {
    SoundAfterTaking(s, t);
    hide Linked, Marked;
    forall i, j | 0 <= i < j < |batch| ensures Clear(t, batch[i], batch[j]) {
      assert Clear(s, batch[i], batch[j]);
    }
    assert forall i :: 0 <= i < |batch| ==> StagedHere(s, batch[i]);
  }

  lemma ClosedWasDisplaced(s: State, t: State, batch: seq<Id>, x: Id)
    requires Sound(s) && SameTables(s, t) && Disjoint(s, batch) && Open(s, x)
    requires forall i :: 0 <= i < |batch| ==> StagedHere(s, batch[i])
    requires x in s.regs && !Open(RemoveAll(InstallAll(t, batch), Displacing(t, batch)), x)
    ensures x in Displacing(t, batch)
  {
    hide *;
    SoundAfterTaking(s, t);
    SoundParts(t);
    StagedOn(s, t, batch, x);
    InstallAllRows(t, batch);
    RemoveAllRows(InstallAll(t, batch), Displacing(t, batch));
    StaysOpen(t, InstallAll(t, batch), RemoveAll(InstallAll(t, batch), Displacing(t, batch)), x, Ids(batch),
      Ids(Displacing(t, batch)));
    InIdsIff(x, Displacing(t, batch));
  }

  lemma InIdsIff(x: Id, ids: seq<Id>)
    ensures x in Ids(ids) <==> x in ids
  {
  }

  lemma StagedOn(s: State, t: State, batch: seq<Id>, x: Id)
    requires SameTables(s, t) && Disjoint(s, batch) && Open(s, x)
    requires forall i :: 0 <= i < |batch| ==> StagedHere(s, batch[i])
    ensures Disjoint(t, batch) && (forall i :: 0 <= i < |batch| ==> StagedHere(t, batch[i])) && x !in Ids(batch)
      && Open(t, x) && x in t.regs && t.regs == s.regs
  {
    assert forall i :: 0 <= i < |batch| ==> StagedHere(s, batch[i]);
    forall i, j | 0 <= i < j < |batch| ensures Clear(t, batch[i], batch[j]) {
      assert Clear(s, batch[i], batch[j]);
    }
  }

  lemma StaysOpen(t: State, mid: State, after: State, x: Id, batch: set<Id>, gone: set<Id>)
    requires x in t.regs && Open(t, x) && x !in batch
    requires mid.regs.Keys == t.regs.Keys && (x !in batch ==> mid.regs[x] == t.regs[x])
    requires after.regs.Keys == mid.regs.Keys && (x !in gone ==> after.regs[x] == mid.regs[x])
    ensures x !in gone ==> Open(after, x)
  {
  }

  lemma UnblockedYields(s: State, id: Id, x: Id, ignored: set<Id>, now: real)
    requires Sound(s) && id in s.regs && x in DisplacedSet(s, s.regs[id].key, s.regs[id].top)
    requires !Conflict(s, s.regs[id].key, s.regs[id].top, s.regs[id].owner, s.regs[id].supplants, ignored, now)
    ensures Yields(s, x, id, now)
  {
    var r := s.regs[id];
    SoundParts(s);
    NamedAreOpen(s, r.key, r.top) by { LinkedRoutes(s); }
    DisplacedFacts(s, r.key, r.top);
    assert r.key in s.keyed ==> r.key.ns in s.namespaces;
    hide Clashes, DisplacedSet, Displaced;
  }
}
