/** Which value a share serves: the last one that was accepted for it, or the one it took over. */
module ShareValues {
  import opened Wrappers
  import opened ShareRegistry
  import opened ShareTables
  import opened ShareSteps
  import opened ShareRuns

  /** A client or the Context may write to it. */
  predicate Serves(s: State, id: Id) { id in s.regs && !s.regs[id].closed && s.regs[id].active }

  /** The one registration has changed, and what a new value enters in the books. */
  predicate OnlyRow(s: State, after: State, id: Id) {
    && after == s.(regs := after.regs, prints := after.prints, floors := after.floors, seen := after.seen)
    && after.regs.Keys == s.regs.Keys && forall x: Id :: x in s.regs && x != id ==> after.regs[x] == s.regs[x]
  }

  /** The share answers at its route with exactly this value, under the next marker if it is new there. */
  ghost predicate NowServes(s: State, after: State, id: Id, value: Option<Checksum>)
    requires id in s.regs
  {
    && OnlyRow(s, after, id) && id in after.regs && RouteAt(after, id) == RouteAt(s, id)
    && Answering(after, RouteAt(s, id)) == Some(id) && after.regs[id].active && !after.regs[id].closed
    && after.regs[id].checksum == value
    && after.regs[id].marker == s.regs[id].marker + (if s.regs[id].checksum == value then 0 else 1)
  }

  /** A client's write is accepted exactly if the share is there and the marker it names, if it names
      one, is the share's; and then the share serves the very value that was written. */
  lemma PutServes(s: State, id: Id, c: Checksum, expected: Option<nat>)
    requires Sound(s)
    ensures Put(s, id, c, expected).Installed? <==>
      Serves(s, id) && (expected.None? || expected.value == s.regs[id].marker)
    ensures Put(s, id, c, expected).Installed? ==> NowServes(s, Put(s, id, c, expected).state, id, Some(c))
    ensures Put(s, id, c, expected).Mismatch? ==>
      Serves(s, id) && Put(s, id, c, expected) == Mismatch(s.regs[id].checksum, s.regs[id].marker)
  {
    hide Sound, Wrote;
    if Serves(s, id) {
      WriteServes(s, id, Some(c));
    }
  }

  /** The same for a delivery of a value or of none, which names a fingerprint. */
  lemma DeliverServes(s: State, id: Id, value: Option<Checksum>, expected: Option<nat>)
    requires Sound(s)
    ensures Deliver(s, id, value, expected).Installed? <==> Serves(s, id) && expected == s.regs[id].fingerprint
    ensures Deliver(s, id, value, expected).Installed? ==>
      NowServes(s, Deliver(s, id, value, expected).state, id, value)
    ensures Deliver(s, id, value, expected).Mismatch? ==>
      Serves(s, id) && Deliver(s, id, value, expected) == Mismatch(s.regs[id].checksum, s.regs[id].marker)
  {
    hide Sound, Wrote;
    if Serves(s, id) {
      WriteServes(s, id, value);
    }
  }

  lemma WriteServes(s: State, id: Id, value: Option<Checksum>)
    requires Sound(s) && Serves(s, id)
    ensures NowServes(s, Wrote(s, id, value), id, value)
  {
    WroteShape(s, id, value);
    ActiveIsOpen(s, id);
    assert IsRouted(s, id);
    AnswersAlike(s, Wrote(s, id, value), RouteAt(s, id));
    hide Wrote, Sound, Answering;
  }

  // ----- over every run -----

  /** What each registration is expected to serve. */
  type Shelf = map<Id, Option<Checksum>>

  /** The value of the held registration that answers at the route, if one does. */
  function Inherited(v: Shelf, s: State, r: Route): Option<Checksum> {
    match Answering(s, r)
    case Some(h) => if h in v && h in s.regs && s.regs[h].held then v[h] else None
    case None => None
  }

  /** A write or a delivery puts its value on the shelf, if it is accepted. What is published takes over
      what was held at its route, and is empty otherwise. Nothing else changes a value. */
  function Shelved(v: Shelf, s: State, e: Event): Shelf {
    match e
    case Putting(id, c, expected) =>
      if Serves(s, id) && (expected.None? || expected.value == s.regs[id].marker) then v[id := Some(c)] else v
    case Delivering(id, value, expected) =>
      if Serves(s, id) && expected == s.regs[id].fingerprint then v[id := value] else v
    case Reserving(a, now) =>
      if Reserve(s, a, now).Raised? then v
      else v[s.next := if a.staged then None else Inherited(v, s, RouteOf(a.key, a.top))]
    case Committing(batch, now) =>
      if Commit(s, batch, now).Raised? then v
      else map id | id in v :: if id in batch && id in s.regs then Inherited(v, s, RouteAt(s, id)) else v[id]
    case _ => v
  }

  function ShelfOf(v: Shelf, s: State, events: seq<Event>): Shelf
    decreases |events|
  {
    if events == [] then v else ShelfOf(Shelved(v, s, events[0]), Next(s, events[0]), events[1..])
  }

  ghost predicate Stocked(v: Shelf, s: State) {
    v.Keys == s.regs.Keys && forall id: Id :: id in v ==> s.regs[id].checksum == v[id]
  }

  /** What a write could change in a row is as it was, and a published share is no draft again
      nor a closed one open. */
  predicate SameValue(a: Registration, b: Registration) {
    a.checksum == b.checksum && a.ws == b.ws && a.fingerprint == b.fingerprint && (b.staged ==> a.staged)
      && (a.closed ==> b.closed)
  }

  predicate IsDraft(reg: Registration) { reg.staged && !reg.closed }

  ghost predicate SameValues(s: State, after: State) {
    after.prints == s.prints && forall x: Id :: x in s.regs ==> x in after.regs && SameValue(s.regs[x], after.regs[x])
  }

  lemma SameOn(a: State, b: State, c: State)
    requires SameValues(a, b) && SameValues(b, c)
    ensures SameValues(a, c)
  {
    forall x: Id | x in a.regs ensures x in c.regs && SameValue(a.regs[x], c.regs[x]) {
      assert x in b.regs && SameValue(a.regs[x], b.regs[x]);
    }
  }

  lemma {:induction false} RemoveAllSameValues(s: State, ids: seq<Id>)
    ensures SameValues(s, RemoveAll(s, ids)) && RemoveAll(s, ids).regs.Keys == s.regs.Keys
    decreases |ids|
  {
    if ids != [] {
      var after := Remove(s, ids[0]);
      RemoveSameValues(s, ids[0]);
      RemoveAllSameValues(after, ids[1..]);
      hide Remove, SameValue;
      SameOn(s, after, RemoveAll(after, ids[1..]));
    }
  }

  lemma RemoveSameValues(s: State, id: Id)
    ensures SameValues(s, Remove(s, id)) && Remove(s, id).regs.Keys == s.regs.Keys
  {
    hide Floor, Deserted, RouteOf, Without;
  }

  // ----- reserving -----

  /** What is held for a route is what answers there, if that is held. */
  lemma HeldForIs(s: State, key: Key, top: bool, leaving: set<Id>, newer: set<Id>)
    requires Linked(s, leaving, newer) && DisplacedSet(s, key, top) !! newer
    ensures var r := RouteOf(key, top);
            HeldFor(s, key, top) ==
            if Answering(s, r).Some? && Answering(s, r).value in s.regs && s.regs[Answering(s, r).value].held
            then Answering(s, r) else None
  {
    HeldIsAnswering(s, key, top, leaving, newer);
    LinkedTables(s, leaving, newer);
    hide Linked, DisplacedSet;
  }

  /** What a registration published at `r` takes over. */
  function TakenAt(s: State, r: Route): Option<Checksum> {
    match Answering(s, r)
    case Some(h) => if h in s.regs && s.regs[h].held then s.regs[h].checksum else None
    case None => None
  }

  lemma InheritedIsTaken(v: Shelf, s: State, r: Route)
    requires Stocked(v, s)
    ensures Inherited(v, s, r) == TakenAt(s, r)
  {
  }

  lemma PublishedValue(s: State, id: Id, reg: Registration, now: real)
    requires id !in s.regs && reg.checksum.None?
    requires HeldFor(s, reg.key, reg.top).Some? ==> HeldFor(s, reg.key, reg.top).value in s.regs
    ensures var after, held := Published(s, id, reg, now), HeldFor(s, reg.key, reg.top);
            && after.regs.Keys == s.regs.Keys + {id} && SameValues(s, after)
            && after.regs[id].checksum == (if held.Some? then s.regs[held.value].checksum else None)
  {
    var held := HeldFor(s, reg.key, reg.top);
    if held.Some? {
      RemoveSameValues(s, held.value);
    }
    hide HeldFor, Remove, Noted;
  }

  lemma ReserveStocks(v: Shelf, s: State, a: Ask, now: real)
    requires Sound(s) && Stocked(v, s) && (a.staged || a.supplants == {})
    ensures Stocked(Shelved(v, s, Reserving(a, now)), Reserve(s, a, now).state)
    ensures SameValues(s, Reserve(s, a, now).state)
  {
    SoundParts(s);
    InheritedIsTaken(v, s, RouteOf(a.key, a.top));
    hide Sound, Linked, Marked, Drafts;
    if Reserve(s, a, now).Raised? {
      assert Reserve(s, a, now).state == s by { hide Conflict, Published; }
    } else if a.staged {
      StagedReserve(s, a, now);
      hide Reserve, Drafted, Claimed;
    } else {
      hide Reserve, Shelved, Stocked;
      DirectStocks(v, s, a, now);
    }
  }

  lemma DirectStocks(v: Shelf, s: State, a: Ask, now: real)
    requires Linked(s, {}, {}) && KeysLinked(s) && s.next !in s.regs && Stocked(v, s)
    requires !a.staged && Reserve(s, a, now).Done?
      && Inherited(v, s, RouteOf(a.key, a.top)) == TakenAt(s, RouteOf(a.key,
      a.top))
    ensures Stocked(Shelved(v, s, Reserving(a, now)), Reserve(s, a, now).state)
    ensures SameValues(s, Reserve(s, a, now).state)
  {
    var c, reg := Claimed(s, a).(next := s.next + 1), Drafted(s, a);
    var after := Published(c, s.next, reg, now);
    DirectReserve(s, a, now);
    ClaimShape(s, a);
    HeldForIs(s, a.key, a.top, {}, {}) by { assert DisplacedSet(s, a.key, a.top) !! {}; }
    SameFound(s, c, a.key, a.top);
    HeldIsThere(s, a.key, a.top);
    hide Reserve, Published, HeldFor, Answering, Conflict, Claimed, Drafted, Inherited, Linked, KeysLinked, SameValue;
    PublishedValue(c, s.next, reg, now);
    assert Shelved(v, s, Reserving(a, now)) == v[s.next := TakenAt(s, RouteOf(a.key, a.top))];
    assert after.regs[s.next].checksum == TakenAt(s, RouteOf(a.key, a.top));
    hide Shelved, TakenAt;
    OneMoreStocked(v, s, after, TakenAt(s, RouteOf(a.key, a.top)));
  }

  lemma HeldIsThere(s: State, key: Key, top: bool)
    ensures HeldFor(s, key, top).Some? ==> HeldFor(s, key, top).value in s.regs
  {
  }

  lemma OneMoreStocked(v: Shelf, s: State, after: State, value: Option<Checksum>)
    requires Stocked(v, s) && SameValues(s, after) && after.regs.Keys == s.regs.Keys + {s.next}
    requires s.next !in s.regs && after.regs[s.next].checksum == value
    ensures Stocked(v[s.next := value], after)
  {
  }

  // ----- committing -----

  lemma InstallValue(s: State, id: Id, leaving: set<Id>, newer: set<Id>)
    requires Linked(s, leaving, newer) && Marked(s) && id in s.regs && s.regs[id].staged && !s.regs[id].closed
    requires DisplacedSet(s, s.regs[id].key, s.regs[id].top) !! newer
    ensures var after := Install(s, id);
            && after.regs.Keys == s.regs.Keys && after.prints == s.prints
            && (forall x: Id :: x in s.regs && x != id ==> after.regs[x] == s.regs[x])
            && after.regs[id].checksum == TakenAt(s, RouteAt(s, id))
            && (after.regs[id].held <==> s.regs[id].held || HeldThere(s, RouteAt(s, id)))
  {
    assert Draft(s, id);
    HeldReady(s, id);
    ReadyShape(s, id);
    InstallRows(s, id);
    HeldForIs(s, s.regs[id].key, s.regs[id].top, leaving, newer);
    assert Install(s, id).regs[id] == Ready(s, id) && Install(s, id).prints == s.prints by { hide Ready, Noted; }
    hide Install, Ready, HeldFor, Answering, Linked, Marked, DisplacedSet;
  }

  /** What answers at the route is held. */
  predicate HeldThere(s: State, r: Route) {
    Answering(s, r).Some? && Answering(s, r).value in s.regs && s.regs[Answering(s, r).value].held
  }

  lemma HeldReady(s: State, id: Id)
    requires id in s.regs
    ensures var reg := s.regs[id];
            Ready(s, id).held <==>
              reg.held || (HeldFor(s, reg.key, reg.top).Some? && HeldFor(s, reg.key, reg.top).value in s.regs)
  {
    hide HeldFor, RaisedTo, Displaced, Floor;
  }

  /** A reservation finds at its route what was there before another was installed. */
  lemma TakenStays(s: State, id: Id, other: Id, leaving: set<Id>, newer: set<Id>)
    requires Linked(s, leaving, newer) && id in s.regs && s.regs[id].staged && other in s.regs && Clear(s, id, other)
    ensures TakenAt(Install(s, id), RouteAt(s, other)) == TakenAt(s, RouteAt(s, other))
    ensures HeldThere(Install(s, id), RouteAt(s, other)) == HeldThere(s, RouteAt(s, other))
  {
    var r := RouteAt(s, other);
    LinkedTables(s, leaving, newer);
    InstallRows(s, id);
    ListedAnswers(s, id, Ready(s, id));
    ReadyShape(s, id);
    assert Answering(Install(s, id), r) == Answering(Listed(s, id, Ready(s, id)), r);
    assert Answering(s, r).Some? ==> Answering(s, r).value != id;
    hide Install, Ready, Listed, Answering, Linked;
  }

  lemma {:induction false} InstallAllValues(s: State, batch: seq<Id>, leaving: set<Id>, newer: set<Id>)
    requires Linked(s, leaving, newer) && Marked(s) && Drafts(s) && Installable(s, batch, newer)
    requires forall i :: 0 <= i < |batch| ==> StagedHere(s, batch[i])
    requires forall y :: y in leaving ==> Open(s, y)
    requires forall i :: 0 <= i < |batch| ==> batch[i] !in newer
    ensures var after := InstallAll(s, batch);
            && after.regs.Keys == s.regs.Keys && after.prints == s.prints
            && (forall x: Id :: x in s.regs && x !in Ids(batch) ==> after.regs[x] == s.regs[x])
            && (forall x: Id :: x in Ids(batch) ==>
                  && x in s.regs && after.regs[x].checksum == TakenAt(s, RouteAt(s, x))
                  && (after.regs[x].held <==> s.regs[x].held || HeldThere(s, RouteAt(s, x))))
    decreases |batch|
  {
    if batch != [] {
      var id, rest := batch[0], batch[1..];
      var after := Install(s, id);
      var gone := DisplacedSet(s, s.regs[id].key, s.regs[id].top);
      InstallsFirst(s, batch, leaving, newer);
      assert forall x: Id :: x in Ids(batch) <==> x == id || x in Ids(rest);
      RestTakesAlike(s, batch, leaving, newer);
      hide *;
      InstallAllValues(after, rest, leaving + gone, newer + {id});
      InstallAllStep(s, batch);
    }
  }

  lemma InstallAllStep(s: State, batch: seq<Id>)
    requires batch != [] && batch[0] in s.regs
    ensures InstallAll(s, batch) == InstallAll(Install(s, batch[0]), batch[1..])
  {
    hide Install;
  }

  lemma RestTakesAlike(s: State, batch: seq<Id>, leaving: set<Id>, newer: set<Id>)
    requires Linked(s, leaving, newer) && batch != [] && Installable(s, batch, newer)
    requires forall i :: 0 <= i < |batch| ==> StagedHere(s, batch[i])
    ensures forall x: Id :: x in Ids(batch[1..]) ==>
              && x in s.regs && x in Install(s, batch[0]).regs && RouteAt(Install(s, batch[0]), x) == RouteAt(s, x)
              && Install(s, batch[0]).regs[x] == s.regs[x] && x != batch[0]
              && TakenAt(Install(s, batch[0]), RouteAt(s, x)) == TakenAt(s, RouteAt(s, x))
              && HeldThere(Install(s, batch[0]), RouteAt(s, x)) == HeldThere(s, RouteAt(s, x))
  {
    var rest := batch[1..];
    InstallRows(s, batch[0]);
    NotInstalledYet(s, batch);
    hide Install, TakenAt, HeldThere, Linked, Collide;
    forall x: Id | x in Ids(rest)
      ensures x in s.regs && x != batch[0]
      ensures TakenAt(Install(s, batch[0]), RouteAt(s, x)) == TakenAt(s, RouteAt(s, x))
      ensures HeldThere(Install(s, batch[0]), RouteAt(s, x)) == HeldThere(s, RouteAt(s, x))
    {
      var i :| 0 <= i < |rest| && rest[i] == x;
      assert Clear(s, batch[0], batch[i + 1]) && StagedHere(s, batch[i + 1]);
      TakenStays(s, batch[0], x, leaving, newer);
    }
  }

  /** The first of a batch is installed, and the rest can be. */
  lemma InstallsFirst(s: State, batch: seq<Id>, leaving: set<Id>, newer: set<Id>)
    requires Linked(s, leaving, newer) && Marked(s) && Drafts(s) && batch != [] && Installable(s, batch, newer)
    requires forall i :: 0 <= i < |batch| ==> StagedHere(s, batch[i])
    requires forall y :: y in leaving ==> Open(s, y)
    requires forall i :: 0 <= i < |batch| ==> batch[i] !in newer
    ensures var id, after, rest := batch[0], Install(s, batch[0]), batch[1..];
            var gone := DisplacedSet(s, s.regs[id].key, s.regs[id].top);
            && Linked(after, leaving + gone, newer + {id}) && Marked(after) && Drafts(after)
            && Installable(after, rest, newer + {id})
            && (forall i :: 0 <= i < |rest| ==> StagedHere(after, rest[i]) && rest[i] !in newer + {id})
            && (forall y :: y in leaving + gone ==> Open(after, y))
            && after.regs.Keys == s.regs.Keys && after.prints == s.prints
            && (forall x: Id :: x in s.regs && x != id ==> after.regs[x] == s.regs[x])
            && after.regs[id].checksum == TakenAt(s, RouteAt(s, id))
            && (after.regs[id].held <==> s.regs[id].held || HeldThere(s, RouteAt(s, id)))
  {
    var id := batch[0];
    assert StagedHere(s, id);
    hide Install, DisplacedSet, Linked, Marked, TakenAt, HeldThere;
    NoNewerDisplaced(s, id, newer, leaving);
    InstallValue(s, id, leaving, newer);
    OpenAreNotStaged(s, id, leaving);
    InstallKeeps(s, id, leaving, newer);
    InstallDrafts(s, id);
    RestInstallable(s, batch, newer);
    GoneAreOpen(s, id, leaving, newer);
    NotInstalledYet(s, batch);
    RestStaged(s, batch);
  }

  lemma OpenAreNotStaged(s: State, id: Id, leaving: set<Id>)
    requires id in s.regs && s.regs[id].staged && forall y :: y in leaving ==> Open(s, y)
    ensures id !in leaving
  {
  }

  lemma RestStaged(s: State, batch: seq<Id>)
    requires batch != [] && Disjoint(s, batch) && forall i :: 0 <= i < |batch| ==> StagedHere(s, batch[i])
    requires batch[0] in s.regs
    ensures forall i :: 0 <= i < |batch| - 1 ==> StagedHere(Install(s, batch[0]), batch[1..][i])
  {
    var after := Install(s, batch[0]);
    InstallRows(s, batch[0]);
    assert after.staged == s.staged - {batch[0]};
    hide Install, Collide;
    forall i | 0 <= i < |batch| - 1 ensures StagedHere(after, batch[1..][i]) {
      assert StagedHere(s, batch[i + 1]) && Clear(s, batch[0], batch[i + 1]);
      CollidesWithItself(s, batch[0]);
    }
  }

  lemma CommitStocks(v: Shelf, s: State, batch: seq<Id>, now: real)
    requires Sound(s) && Stocked(v, s)
    ensures Stocked(Shelved(v, s, Committing(batch, now)), Commit(s, batch, now).state)
    ensures Commit(s, batch, now).state.prints == s.prints
    ensures forall x: Id :: x in s.regs && !IsDraft(s.regs[x]) ==>
      x in Commit(s, batch, now).state.regs && SameValue(s.regs[x], Commit(s, batch, now).state.regs[x])
  {
    CommitIsAtomic(s, batch, now);
    hide Commit, Conflict, Follows, Sound, Disjoint;
    if Commit(s, batch, now).Done? {
      BatchStocks(v, s, batch, now);
    }
  }

  lemma BatchStocks(v: Shelf, s: State, batch: seq<Id>, now: real)
    requires Sound(s) && Stocked(v, s) && Commit(s, batch, now).Done? && Disjoint(s, batch)
    requires forall i :: 0 <= i < |batch| ==> StagedHere(s, batch[i]) && s.regs[batch[i]].key.ns in s.namespaces
    ensures Stocked(Shelved(v, s, Committing(batch, now)), Commit(s, batch, now).state)
    ensures Commit(s, batch, now).state.prints == s.prints
    ensures forall x: Id :: x in s.regs && !IsDraft(s.regs[x]) ==>
      x in Commit(s, batch, now).state.regs && SameValue(s.regs[x], Commit(s, batch, now).state.regs[x])
  {
    TakingTouchesOwners(s, batch, now);
    var t := TakeNamespaces(s, batch, now).state;
    CommitIs(s, batch, now);
    hide Commit, Sound, TakeNamespaces, InstallAll, RemoveAll, Displacing, Disjoint, Stocked, SameValue, Shelved;
    BatchValues(s, t, batch);
    BatchShelved(v, s, batch, now, Commit(s, batch, now).state);
  }

  lemma CommitIs(s: State, batch: seq<Id>, now: real)
    requires Commit(s, batch, now).Done?
    ensures var t := TakeNamespaces(s, batch, now).state;
            TakeNamespaces(s, batch, now).Done?
            && Commit(s, batch, now).state == RemoveAll(InstallAll(t, batch), Displacing(t, batch))
  {
    hide Conflict, TakeNamespaces, InstallAll, RemoveAll, Displacing, Disjoint;
  }

  /** What a batch makes of the values, over any removals after it. */
  lemma BatchValues(s: State, t: State, batch: seq<Id>)
    requires Sound(s) && SameTables(s, t) && Disjoint(s, batch)
    requires forall i :: 0 <= i < |batch| ==> StagedHere(s, batch[i]) && s.regs[batch[i]].key.ns in s.namespaces
    ensures var after := RemoveAll(InstallAll(t, batch), Displacing(t, batch));
            && after.regs.Keys == s.regs.Keys && after.prints == s.prints
            && (forall x: Id :: x in s.regs && x !in batch ==> SameValue(s.regs[x], after.regs[x]))
            && (forall x: Id :: x in s.regs && x in batch ==>
                  after.regs[x].checksum == TakenAt(s, RouteAt(s, x)) && IsDraft(s.regs[x]))
  {
    var mid := InstallAll(t, batch);
    StartsInstallable(s, t, batch);
    SoundAfterTaking(s, t);
    SoundParts(t);
    StagedOnAll(s, t, batch);
    hide Sound, Follows, InstallAll, RemoveAll, Displacing, Linked, Marked, Drafts, Installable, Disjoint;
    InstallAllValues(t, batch, {}, {});
    RemoveAllSameValues(mid, Displacing(t, batch));
    assert forall x: Id :: x in batch <==> x in Ids(batch);
    forall x: Id | x in s.regs && x in batch
      ensures TakenAt(t, RouteAt(t, x)) == TakenAt(s, RouteAt(s, x)) && IsDraft(s.regs[x])
    {
      var i :| 0 <= i < |batch| && batch[i] == x;
      assert StagedHere(s, batch[i]);
      TakenAlike(s, t, RouteAt(s, x));
    }
    hide TakenAt, StagedHere;
  }

  lemma BatchShelved(v: Shelf, s: State, batch: seq<Id>, now: real, after: State)
    requires Stocked(v, s) && Commit(s, batch, now).Done? && after.regs.Keys == s.regs.Keys
    requires forall x: Id :: x in s.regs && x !in batch ==> SameValue(s.regs[x], after.regs[x])
    requires forall x: Id :: x in s.regs && x in batch ==> after.regs[x].checksum == TakenAt(s, RouteAt(s, x))
    ensures Stocked(Shelved(v, s, Committing(batch, now)), after)
  {
    forall x: Id | x in s.regs && x in batch ensures Inherited(v, s, RouteAt(s, x)) == TakenAt(s, RouteAt(s, x)) {
      InheritedIsTaken(v, s, RouteAt(s, x));
    }
    hide Inherited, TakenAt, Commit;
  }

  lemma StagedOnAll(s: State, t: State, batch: seq<Id>)
    requires t == s.(namespaces := t.namespaces) && forall i :: 0 <= i < |batch| ==> StagedHere(s, batch[i])
    ensures forall i :: 0 <= i < |batch| ==> StagedHere(t, batch[i])
  {
    forall i | 0 <= i < |batch| ensures StagedHere(t, batch[i]) {
      assert StagedHere(s, batch[i]);
    }
  }

  lemma TakenAlike(s: State, t: State, r: Route)
    requires t == s.(namespaces := t.namespaces)
    ensures TakenAt(t, r) == TakenAt(s, r)
  {
    assert Answering(t, r) == Answering(s, r);
    hide Answering;
  }

  // ----- every step and every run -----

  lemma QuietSameValues(s: State, e: Event)
    requires e.Activating? || e.Reattaching? || e.Holding? || e.BeginningClose? || e.HoldingAll?
    ensures SameValues(s, Next(s, e)) && Next(s, e).regs.Keys == s.regs.Keys
  {
    hide SameValues, Activated, Reattached, HoldOne, BeginClose, HoldNamespace;
    match e {
      case HoldingAll(ns, owner, deadline) => HeldSameValues(s, ns, owner, deadline);
      case Activating(id) => ActivatedSameValues(s, id);
      case Reattaching(id) => ReattachedSameValues(s, id);
      case Holding(id) => HeldOneSameValues(s, id);
      case BeginningClose(ns, owner) => ClosingSameValues(s, ns, owner);
    }
  }

  lemma HeldSameValues(s: State, ns: Name, owner: Owner, deadline: real)
    ensures SameValues(s, HoldNamespace(s, ns, owner, deadline))
    ensures HoldNamespace(s, ns, owner, deadline).regs.Keys == s.regs.Keys
  {
  }

  lemma ActivatedSameValues(s: State, id: Id)
    ensures SameValues(s, Activated(s, id)) && Activated(s, id).regs.Keys == s.regs.Keys
  {
  }

  lemma ReattachedSameValues(s: State, id: Id)
    ensures SameValues(s, Reattached(s, id)) && Reattached(s, id).regs.Keys == s.regs.Keys
  {
  }

  lemma HeldOneSameValues(s: State, id: Id)
    ensures SameValues(s, HoldOne(s, id)) && HoldOne(s, id).regs.Keys == s.regs.Keys
  {
  }

  lemma ClosingSameValues(s: State, ns: Name, owner: Owner)
    ensures SameValues(s, BeginClose(s, ns, owner)) && BeginClose(s, ns, owner).regs.Keys == s.regs.Keys
  {
  }

  lemma ExpireSameValues(s: State, ns: Name, now: real, order: seq<Id>)
    ensures SameValues(s, Expire(s, ns, now, order)) && Expire(s, ns, now, order).regs.Keys == s.regs.Keys
  {
    RemoveAllSameValues(s, order);
    hide RemoveAll, Unkeyed;
    var mid, after := RemoveAll(s, order), Expire(s, ns, now, order);
    assert after == s || (after.regs == mid.regs && after.prints == mid.prints);
  }

  lemma CloseSameValues(s: State, ns: Name, owner: Owner, order: seq<Id>)
    ensures SameValues(s, CloseNamespace(s, ns, owner, order))
    ensures CloseNamespace(s, ns, owner, order).regs.Keys == s.regs.Keys
  {
    RemoveAllSameValues(s, order);
    hide RemoveAll, StillServes;
    var mid, after := RemoveAll(s, order), CloseNamespace(s, ns, owner, order);
    assert after == s || (after.regs == mid.regs && after.prints == mid.prints);
  }

  lemma SameValuesStock(v: Shelf, s: State, after: State)
    requires Stocked(v, s) && SameValues(s, after) && after.regs.Keys == s.regs.Keys
    ensures Stocked(v, after)
  {
    forall id: Id | id in v ensures after.regs[id].checksum == v[id] {
      assert SameValue(s.regs[id], after.regs[id]);
    }
  }

  lemma WriteStocks(v: Shelf, s: State, after: State, id: Id, value: Option<Checksum>)
    requires Stocked(v, s) && id in s.regs && NowServes(s, after, id, value)
    ensures Stocked(v[id := value], after)
  {
    hide Answering;
  }

  lemma NextStocks(v: Shelf, s: State, e: Event)
    requires Sound(s) && Possible(s, e) && Stocked(v, s)
    ensures Stocked(Shelved(v, s, e), Next(s, e))
  {
    hide Sound, Stocked, Reserve, Commit, Remove, Expire, CloseNamespace, Activated, Reattached, HoldOne, BeginClose,
      HoldNamespace, NowServes, Put, Deliver, SameValues;
    match e {
      case Reserving(a, now) => ReserveStocks(v, s, a, now);
      case Committing(batch, now) => CommitStocks(v, s, batch, now);
      case Unregistering(id) =>
        RemoveSameValues(s, id);
        SameValuesStock(v, s, Next(s, e));
      case Delivering(id, value, expected) =>
        DeliverServes(s, id, value, expected);
        if Deliver(s, id, value, expected).Installed? {
          WriteStocks(v, s, Next(s, e), id, value);
        }
      case Putting(id, c, expected) =>
        PutServes(s, id, c, expected);
        if Put(s, id, c, expected).Installed? {
          WriteStocks(v, s, Next(s, e), id, Some(c));
        }
      case Expiring(ns, now, order) =>
        ExpireSameValues(s, ns, now, order);
        SameValuesStock(v, s, Next(s, e));
      case Closing(ns, owner, order) =>
        CloseSameValues(s, ns, owner, order);
        SameValuesStock(v, s, Next(s, e));
      case _ =>
        QuietSameValues(s, e);
        SameValuesStock(v, s, Next(s, e));
    }
  }

  lemma {:induction false} PlayedStocks(v: Shelf, s: State, events: seq<Event>)
    requires Sound(s) && Plays(s, events) && Stocked(v, s)
    ensures Stocked(ShelfOf(v, s, events), Played(s, events))
    decreases |events|
  {
    hide Sound, Stocked, Next, Possible, Shelved;
    if events != [] {
      NextIsSound(s, events[0]);
      NextStocks(v, s, events[0]);
      PlayedStocks(Shelved(v, s, events[0]), Next(s, events[0]), events[1..]);
    }
  }

  /** Over every run, each registration has the value that was last accepted for it, or the one that it
      took over when it was published, or none. */
  lemma EveryRunServesWhatWasAccepted(events: seq<Event>)
    requires Plays(EMPTY, events)
    ensures var s, v := Played(EMPTY, events), ShelfOf(map[], EMPTY, events);
            v.Keys == s.regs.Keys && forall id: Id :: id in v ==> s.regs[id].checksum == v[id]
  {
    EmptyIsSound();
    PlayedStocks(map[], EMPTY, events);
  }

  lemma {:induction false} RemoveAllHolds(s: State, ids: seq<Id>, x: Id)
    requires x in s.regs
    ensures x in RemoveAll(s, ids).regs && RemoveAll(s, ids).regs[x].held == s.regs[x].held
    decreases |ids|
  {
    if ids != [] {
      assert x in Remove(s, ids[0]).regs && Remove(s, ids[0]).regs[x].held == s.regs[x].held by {
        hide Floor, Deserted;
      }
      hide Remove;
      RemoveAllHolds(Remove(s, ids[0]), ids[1..], x);
    }
  }

  /** A share that a commit publishes takes over what was held at its route, with its value, and is held
      itself until its session is there. */
  lemma CommitTakesOverHeld(s: State, batch: seq<Id>, now: real, x: Id)
    requires Sound(s) && Commit(s, batch, now).Done? && x in batch
    ensures var after := Commit(s, batch, now).state;
            && x in s.regs && x in after.regs
            && after.regs[x].checksum == TakenAt(s, RouteAt(s, x))
            && (after.regs[x].held <==> s.regs[x].held || HeldThere(s, RouteAt(s, x)))
  {
    CommitIsAtomic(s, batch, now);
    CommitIs(s, batch, now);
    hide Commit, Conflict, Follows, Sound, Disjoint, TakeNamespaces, InstallAll, RemoveAll, Displacing, TakenAt,
      HeldThere;
    assert forall i :: 0 <= i < |batch| ==> StagedHere(s, batch[i]);
    var t := TakeNamespaces(s, batch, now).state;
    TakingTouchesOwners(s, batch, now);
    BatchTakesOver(s, t, batch, x);
  }

  lemma BatchTakesOver(s: State, t: State, batch: seq<Id>, x: Id)
    requires Sound(s) && SameTables(s, t) && Disjoint(s, batch) && x in batch
    requires forall i :: 0 <= i < |batch| ==> StagedHere(s, batch[i]) && s.regs[batch[i]].key.ns in s.namespaces
    ensures var after := RemoveAll(InstallAll(t, batch), Displacing(t, batch));
            && x in s.regs && x in after.regs
            && after.regs[x].checksum == TakenAt(s, RouteAt(s, x))
            && (after.regs[x].held <==> s.regs[x].held || HeldThere(s, RouteAt(s, x)))
  {
    var i :| 0 <= i < |batch| && batch[i] == x;
    assert StagedHere(s, batch[i]);
    StartsInstallable(s, t, batch);
    SoundAfterTaking(s, t);
    SoundParts(t);
    StagedOnAll(s, t, batch);
    hide Sound, Follows, Disjoint, InstallAll, RemoveAll, Displacing, Linked, Marked, Drafts, Installable, StagedHere;
    InstallAllValues(t, batch, {}, {});
    var mid := InstallAll(t, batch);
    RemoveAllSameValues(mid, Displacing(t, batch));
    RemoveAllHolds(mid, Displacing(t, batch), x);
    assert x in Ids(batch);
    TakenAlike(s, t, RouteAt(s, x));
    HeldAlike(s, t, RouteAt(s, x));
    hide TakenAt, HeldThere;
  }

  lemma HeldAlike(s: State, t: State, r: Route)
    requires t == s.(namespaces := t.namespaces)
    ensures HeldThere(t, r) == HeldThere(s, r)
  {
    assert Answering(t, r) == Answering(s, r);
    hide Answering;
  }
}
