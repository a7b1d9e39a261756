/** The registry under every whole operation: a commit, a reservation, a write, a hold and a close. */
module ShareSteps {
  import opened Wrappers
  import opened ShareRegistry
  import opened ShareTables
  import opened ShareKeys

  // ----- committing -----

  lemma {:induction false} NoProblem(s: State, batch: seq<Id>, all: set<Id>, now: real)
    ensures FirstProblem(s, batch, all, now).None? <==>
            forall i :: 0 <= i < |batch| ==>
              StagedHere(s, batch[i])
                && !Conflict(s, s.regs[batch[i]].key, s.regs[batch[i]].top, s.regs[batch[i]].owner,
                   s.regs[batch[i]].supplants, all, now)
  {
    hide Conflict, StagedHere;
    if batch != [] {
      NoProblem(s, batch[1..], all, now);
    }
  }

  /** Taking namespaces over changes nothing but the namespaces' own records, and fails exactly
      when one is gone. */
  lemma {:induction false} TakingTouchesOwners(s: State, batch: seq<Id>, now: real)
    requires forall i :: 0 <= i < |batch| ==> batch[i] in s.regs
    ensures var t := TakeNamespaces(s, batch, now).state;
            t == s.(namespaces := t.namespaces) && t.namespaces.Keys == s.namespaces.Keys
    ensures TakeNamespaces(s, batch, now).Done? <==> forall i :: 0 <= i < |batch| ==>
      s.regs[batch[i]].key.ns in s.namespaces
    ensures TakeNamespaces(s, batch, now).Raised? ==> TakeNamespaces(s, batch, now).error == NamespaceGone
    decreases |batch|
  {
    if batch != [] && s.regs[batch[0]].key.ns in s.namespaces {
      TakingTouchesOwners(TakenOver(s, s.regs[batch[0]].key.ns, s.regs[batch[0]].owner, now), batch[1..], now);
    }
  }

  /** The tables a client can see, and everything but the namespaces' ownership. */
  predicate SameTables(s: State, after: State) {
    after == s.(namespaces := after.namespaces) && after.namespaces.Keys == s.namespaces.Keys
  }

  /** A batch is published as a whole, keeping the registry sound and adding no stray, or the
      commit fails with every table as it was. It is published exactly when each reservation is
      still staged and without conflict, no two collide, and every namespace is still there. */
  lemma CommitIsAtomic(s: State, batch: seq<Id>, now: real)
    requires Sound(s)
    ensures match Commit(s, batch, now)
            case Done(after) => Sound(after) && Follows(s, after) && AllKeyed(after, Strays(s))
                                && (forall i :: 0 <= i < |batch| ==>
                                      Open(after, batch[i]) && IsKeyed(after, batch[i]) && IsRouted(after, batch[i]))
            case Raised(e, after) => SameTables(s, after) && (e != NamespaceGone ==> after == s)
    ensures Commit(s, batch, now).Done? <==>
            && (forall i :: 0 <= i < |batch| ==>
                  StagedHere(s, batch[i])
                    && !Conflict(s, s.regs[batch[i]].key, s.regs[batch[i]].top, s.regs[batch[i]].owner,
                       s.regs[batch[i]].supplants, Ids(batch), now))
            && Disjoint(s, batch)
            && (forall i :: 0 <= i < |batch| ==> StagedHere(s, batch[i]) && s.regs[batch[i]].key.ns in s.namespaces)
  {
    NoProblem(s, batch, Ids(batch), now);
    hide Conflict, Sound, Disjoint, Follows;
    if FirstProblem(s, batch, Ids(batch), now).None? && Disjoint(s, batch) {
      TakingTouchesOwners(s, batch, now);
      var t := TakeNamespaces(s, batch, now);
      if t.Done? {
        BatchKeeps(s, t.state, batch);
      }
    }
  }

  lemma BatchKeeps(s: State, t: State, batch: seq<Id>)
    requires Sound(s) && SameTables(s, t) && Disjoint(s, batch)
    requires forall i :: 0 <= i < |batch| ==> StagedHere(s, batch[i]) && s.regs[batch[i]].key.ns in s.namespaces
    ensures var after := RemoveAll(InstallAll(t, batch), Displacing(t, batch));
            && Sound(after) && Follows(s, after) && AllKeyed(after, Strays(s))
            && (forall i :: 0 <= i < |batch| ==>
                  Open(after, batch[i]) && IsKeyed(after, batch[i]) && IsRouted(after, batch[i]))
  {
    SoundAfterTaking(s, t);
    forall i, j | 0 <= i < j < |batch| ensures Clear(t, batch[i], batch[j]) {
      assert Clear(s, batch[i], batch[j]);
    }
    assert forall i :: 0 <= i < |batch| ==> StagedHere(s, batch[i]) ==> StagedHere(t, batch[i]);
    assert Installable(t, batch, {});
    assert {} + Ids(Displacing(t, batch)) == Ids(Displacing(t, batch)) && {} + Ids(batch) == Ids(batch);
    assert Linked(t, {}, {});
    assert Drafts(t) && Marked(t);
    assert AllKeyed(t, Strays(s)) by {
      AllButStraysAreKeyed(s);
      SameOpen(s, t);
      SameKeyed(s, t, Strays(s));
    }
    assert forall i :: 0 <= i < |batch| ==> StagedHere(s, batch[i]) ==> batch[i] !in Strays(s);
    hide *;
    BatchSettles(s, t, batch, Strays(s));
  }

  lemma BatchSettles(s: State, t: State, batch: seq<Id>, strays: set<Id>)
    requires Follows(s, t) && Linked(t, {}, {}) && Marked(t) && Drafts(t) && Installable(t, batch, {})
    requires Disjoint(t, batch)
    requires forall i :: 0 <= i < |batch| ==> StagedHere(t, batch[i])
    requires {} + Ids(Displacing(t, batch)) == Ids(Displacing(t, batch)) && {} + Ids(batch) == Ids(batch)
    requires AllKeyed(t, strays) && forall i :: 0 <= i < |batch| ==> batch[i] !in strays
    ensures var after := RemoveAll(InstallAll(t, batch), Displacing(t, batch));
            && Sound(after) && Follows(s, after) && AllKeyed(after, strays)
            && (forall i :: 0 <= i < |batch| ==>
                  Open(after, batch[i]) && IsKeyed(after, batch[i]) && IsRouted(after, batch[i]))
  {
    assert forall i :: 0 <= i < |batch| ==> StagedHere(t, batch[i]) ==> batch[i] in t.regs && !t.regs[batch[i]].closed;
    BatchKeepsKeys(t, batch, strays);
    hide Linked, Marked, Follows, Installable, Displacing, StagedHere, IsKeyed, IsRouted, Disjoint, Drafts;
    InstallAllKeeps(t, batch, {}, {});
    InstallAllRows(t, batch);
    var mid, gone := InstallAll(t, batch), Displacing(t, batch);
    var after := RemoveAll(mid, gone);
    LeavingApart(mid, Ids(gone), Ids(batch));
    RemoveAllKeeps(mid, gone, Ids(gone), Ids(batch));
    RemoveAllRows(mid, gone);
    assert Ids(gone) - Ids(gone) == {};
    FollowsOn(s, t, mid);
    FollowsOn(s, mid, after);
    SettledIsLinked(after, Ids(batch));
    forall i | 0 <= i < |batch| ensures Open(after, batch[i]) && IsKeyed(after, batch[i]) && IsRouted(after, batch[i]) {
      assert batch[i] in Ids(batch);
      LinkedIsRouted(after, batch[i]);
    }
  }

  lemma LeavingApart(s: State, leaving: set<Id>, newer: set<Id>)
    requires Linked(s, leaving, newer)
    ensures leaving !! newer
  {
  }

  lemma LinkedIsRouted(s: State, id: Id)
    requires Linked(s, {}, {}) && Open(s, id)
    ensures IsRouted(s, id)
  {
  }

  /** With none leaving, no one's route is lost. */
  lemma SettledIsLinked(s: State, newer: set<Id>)
    requires Linked(s, {}, newer)
    ensures Linked(s, {}, {})
  {
    forall x: Id | Open(s, x) ensures Answering(s, RouteAt(s, x)) == Some(x) {
      assert IsRouted(s, x);
    }
  }

  lemma SoundAfterTaking(s: State, t: State)
    requires Sound(s) && SameTables(s, t)
    ensures Sound(t) && Follows(s, t)
  {
    NamespacesGrow(s, t, {}, {});
    SameMarks(s, t);
    hide Linked, Marked, Follows;
  }

  // ----- reserving keeps the registry sound -----

  /** The record table's entry for the key is a share of another route than the one reserved. */
  predicate Orphans(s: State, key: Key, top: bool) {
    key in s.keyed && s.keyed[key] in s.regs && RouteAt(s, s.keyed[key]) != RouteOf(key, top)
  }

  /** A new row that is only a draft changes nothing for the published ones. */
  lemma DraftAdded(s: State, reg: Registration)
    requires Sound(s) && reg.staged && !reg.closed && !reg.active && reg.checksum.None?
    requires reg.marker <= Floor(s, RouteOf(reg.key, reg.top))
    ensures var after := s.(regs := s.regs[s.next := reg], staged := s.staged + {s.next}, next := s.next + 1);
            Sound(after) && Follows(s, after)
  {
    var after := s.(regs := s.regs[s.next := reg], staged := s.staged + {s.next}, next := s.next + 1);
    assert forall r :: Answering(after, r) == Answering(s, r);
    assert forall r :: Floor(after, r) == Floor(s, r);
    assert forall x: Id :: Open(after, x) <==> Open(s, x);
    hide Answering, Floor;
    forall x: Id | Open(after, x) ensures IsRouted(after, x) {
      assert IsRouted(s, x);
    }
    forall r ensures Above(after, r) && Standing(s, r) <= Standing(after, r) {
      assert Above(s, r);
    }
    forall x: Id ensures Draft(after, x) {
      assert Draft(s, x);
    }
  }

  lemma TakenIsSound(s: State, after: State)
    requires Sound(s) && after == s.(namespaces := after.namespaces, next := after.next)
    requires s.namespaces.Keys <= after.namespaces.Keys && s.next <= after.next
    ensures Sound(after) && Follows(s, after)
  {
    assert after == s.(namespaces := after.namespaces, staged := after.staged, next := after.next);
    DraftsStay(s, after);
    hide Linked, Marked, Follows, Drafts;
    NamespacesGrow(s, after, {}, {});
    SameMarks(s, after);
  }

  lemma DraftsStay(s: State, after: State)
    requires Drafts(s) && after.regs == s.regs && after.staged == s.staged && s.next <= after.next
    ensures Drafts(after)
  {
  }

  /** At a route there is nothing, or the held share of the key that a reservation takes over. */
  predicate OnlyHeldAt(s: State, key: Key, top: bool) {
    match HeldFor(s, key, top)
    case Some(h) =>
      h in s.regs && Open(s, h) && RouteAt(s, h) == RouteOf(key, top) && Answering(s, RouteOf(key, top)) == Some(h)
    case None => Answering(s, RouteOf(key, top)).None?
  }

  /** With nothing to supplant, only the held share of the very route is in the way. */
  lemma OnlyHeldInTheWay(s: State, key: Key, top: bool, owner: Owner, now: real)
    requires Linked(s, {}, {}) && !Conflict(s, key, top, owner, {}, {}, now)
    ensures OnlyHeldAt(s, key, top)
  {
    var r := RouteOf(key, top);
    if Answering(s, r).Some? {
      var y := Answering(s, r).value;
      assert Open(s, y) && RouteAt(s, y) == r;
      assert s.regs[y].held;
    }
    if key in s.keyed {
      assert IsRouted(s, s.keyed[key]);
    }
  }

  lemma PublishAtOnce(s: State, id: Id, reg: Registration, now: real)
    requires Sound(s) && id !in s.regs && id < s.next && reg.key.ns in s.namespaces
    requires !reg.closed && !reg.staged && !reg.active && reg.checksum.None?
    requires reg.marker == Floor(s, RouteOf(reg.key, reg.top))
    requires OnlyHeldAt(s, reg.key, reg.top)
    ensures Sound(Published(s, id, reg, now)) && Follows(s, Published(s, id, reg, now))
  {
    var held := HeldFor(s, reg.key, reg.top);
    var adopted := if held.Some? then Adopted(reg, s.regs[held.value], held.value) else reg;
    var cleared := if held.Some? then Remove(s, held.value) else s;
    ClearedIsReady(s, reg, held, adopted, cleared);
    var taken := TakenOver(cleared, reg.key.ns, reg.owner, now);
    assert Published(s, id, reg, now) == Listed(taken, id, adopted) by {
      hide HeldFor, Remove, Listed, TakenOver, Sound;
    }
    TakenShape(cleared, reg.key.ns, reg.owner, now);
    hide HeldFor, Remove, Linked, Marked, Follows, Publishable, Listed, Answering, Sound, DisplacedSet, Published,
      TakenOver;
    TakenIsSound(cleared, taken);
    FollowsOn(s, cleared, taken);
    TakenIsReady(cleared, taken, adopted);
    ListIsSound(taken, id, adopted);
    FollowsOn(s, taken, Listed(taken, id, adopted));
  }

  lemma TakenShape(s: State, ns: Name, owner: Owner, now: real)
    ensures var t := TakenOver(s, ns, owner, now);
            t == s.(namespaces := t.namespaces) && t.namespaces.Keys == s.namespaces.Keys
  {
  }

  /** The held share is removed, and its value and marker carry over. */
  lemma ClearedIsReady(s: State, reg: Registration, held: Option<Id>, adopted: Registration, cleared: State)
    requires Sound(s) && reg.key.ns in s.namespaces && reg.checksum.None?
    requires reg.marker == Floor(s, RouteOf(reg.key, reg.top))
    requires held.Some? ==>
               && held.value in s.regs && Open(s, held.value) && RouteAt(s, held.value) == RouteOf(reg.key, reg.top)
               && Answering(s, RouteOf(reg.key, reg.top)) == held
    requires held.None? ==> Answering(s, RouteOf(reg.key, reg.top)).None?
    requires adopted == if held.Some? then Adopted(reg, s.regs[held.value], held.value) else reg
    requires cleared == if held.Some? then Remove(s, held.value) else s
    ensures Sound(cleared) && Follows(s, cleared) && reg.key.ns in cleared.namespaces
    ensures cleared.regs.Keys == s.regs.Keys && cleared.next == s.next
    ensures Answering(cleared, RouteOf(reg.key, reg.top)).None? && Publishable(cleared, adopted)
  {
    var r := RouteOf(reg.key, reg.top);
    assert Above(s, r);
    if held.Some? {
      var h := held.value;
      RemoveLinks(s, h, {}, {});
      RemoveMarks(s, h, {}, {});
      RemoveDrafts(s, h);
      RemoveRows(s, h);
      UnlistAnswers(s, h);
      assert {} - {h} == {};
      assert cleared == Unlisted(s, h);
      assert Floor(cleared, r) == Max(Floor(s, r), s.regs[h].marker) && cleared.seen == s.seen;
      hide Linked, Marked, Follows, Remove, Unlisted, Floor, Drafts;
    } else {
      FollowsItself(s);
    }
  }

  lemma TakenIsReady(s: State, taken: State, reg: Registration)
    requires taken == s.(namespaces := taken.namespaces) && Answering(s, RouteOf(reg.key, reg.top)).None?
    requires Publishable(s, reg)
    ensures Answering(taken, RouteOf(reg.key, reg.top)).None? && Publishable(taken, reg)
  {
  }

  lemma ListIsSound(s: State, id: Id, reg: Registration)
    requires Sound(s) && id !in s.regs && id < s.next && reg.key.ns in s.namespaces && !reg.closed && !reg.staged
    requires !reg.active
    requires Answering(s, RouteOf(reg.key, reg.top)).None? && Publishable(s, reg)
    ensures Sound(Listed(s, id, reg)) && Follows(s, Listed(s, id, reg))
  {
    var none: set<Id> := {};
    assert none + none == none && none + {id} == {id};
    ListFacts(s, id, reg);
    assert Listed(s, id, reg).next == s.next && Listed(s, id, reg).staged == s.staged
      && Listed(s, id, reg).regs == s.regs[id := reg];
    assert Drafts(Listed(s, id, reg));
    hide Listed, Linked, Marked, Publishable, Drafts, Follows, Answering;
    assert RoutesLinked(s) by { LinkedRoutes(s); }
    ListLinks(s, id, reg, {}, {}, {});
    ListMarks(s, id, reg);
    SettledIsLinked(Listed(s, id, reg), {id});
  }

  lemma LinkedRoutes(s: State)
    requires Linked(s, {}, {})
    ensures RoutesLinked(s)
  {
  }

  lemma ClaimShape(s: State, a: Ask)
    ensures var c := Claimed(s, a).(next := s.next + 1);
            && a.key.ns in c.namespaces && c == s.(namespaces := c.namespaces, next := s.next + 1)
            && s.namespaces.Keys <= c.namespaces.Keys
  {
  }

  lemma DirectReserve(s: State, a: Ask, now: real)
    requires !a.staged && Reserve(s, a, now).Done?
    ensures !Conflict(s, a.key, a.top, a.owner, a.supplants, {}, now)
    ensures Reserve(s, a, now).state == Published(Claimed(s, a).(next := s.next + 1), s.next, Drafted(s, a), now)
    ensures var reg := Drafted(s, a);
            && !reg.closed && !reg.staged && !reg.active && reg.checksum.None? && reg.key == a.key && reg.top == a.top
            && reg.marker == Floor(s, RouteOf(reg.key, reg.top))
  {
    hide Conflict, Published, Floor;
  }

  lemma SoundParts(s: State)
    requires Sound(s)
    ensures Linked(s, {}, {}) && KeysLinked(s) && Drafts(s) && Marked(s) && s.next !in s.regs
  {
    hide Marked, RoutesLinked, AllRouted, LostToNewer;
    assert Drafts(s);
  }

  lemma StagedReserveKeeps(s: State, a: Ask, now: real)
    requires Sound(s) && a.staged && Reserve(s, a, now).Done?
    ensures Sound(Reserve(s, a, now).state) && Follows(s, Reserve(s, a, now).state)
  {
    var c, reg, after := Claimed(s, a), Drafted(s, a), Reserve(s, a, now).state;
    StagedReserve(s, a, now);
    hide Conflict, Sound, Follows, Reserve, Claimed, Drafted;
    TakenIsSound(s, c);
    FloorOf(s, c, RouteOf(a.key, a.top));
    DraftAdded(c, reg);
    FollowsOn(s, c, after);
  }

  lemma StagedReserve(s: State, a: Ask, now: real)
    requires a.staged && Reserve(s, a, now).Done?
    ensures var c, reg := Claimed(s, a), Drafted(s, a);
            && c == s.(namespaces := c.namespaces) && s.namespaces.Keys <= c.namespaces.Keys
            && reg.staged && !reg.closed && !reg.active && reg.checksum.None? && reg.key == a.key && reg.top == a.top
            && reg.marker == Floor(s, RouteOf(a.key, a.top))
            && Reserve(s, a, now).state ==
               c.(regs := c.regs[c.next := reg], staged := c.staged + {c.next}, next := c.next + 1)
  {
    hide Conflict, Floor;
  }

  lemma SameFound(s: State, c: State, key: Key, top: bool)
    requires KeysLinked(s) && c == s.(namespaces := c.namespaces, next := c.next)
    requires s.namespaces.Keys <= c.namespaces.Keys
    ensures HeldFor(c, key, top) == HeldFor(s, key, top)
    ensures Answering(c, RouteOf(key, top)) == Answering(s, RouteOf(key, top))
    ensures Floor(c, RouteOf(key, top)) == Floor(s, RouteOf(key, top))
  {
  }

  lemma ClaimFindsTheSame(s: State, c: State, key: Key, top: bool)
    requires KeysLinked(s) && c == s.(namespaces := c.namespaces, next := c.next)
    requires s.namespaces.Keys <= c.namespaces.Keys
    requires OnlyHeldAt(s, key, top)
    ensures OnlyHeldAt(c, key, top)
  {
    hide HeldFor, Answering, Floor, KeysLinked;
    SameFound(s, c, key, top);
  }

  lemma DirectReserveKeeps(s: State, a: Ask, now: real)
    requires Sound(s) && !a.staged && a.supplants == {} && Reserve(s, a, now).Done?
    ensures Sound(Reserve(s, a, now).state) && Follows(s, Reserve(s, a, now).state)
  {
    var c, reg := Claimed(s, a).(next := s.next + 1), Drafted(s, a);
    hide *;
    SoundParts(s);
    DirectReserve(s, a, now);
    OnlyHeldInTheWay(s, a.key, a.top, a.owner, now);
    ClaimShape(s, a);
    TakenIsSound(s, c);
    SameFound(s, c, a.key, a.top);
    ClaimFindsTheSame(s, c, a.key, a.top);
    PublishAtOnce(c, s.next, reg, now);
    FollowsOn(s, c, Reserve(s, a, now).state);
  }

  /** Whom a reservation at once puts out of the record table: the share at its key, if that is
      held at another route. */
  ghost function Orphaned(s: State, a: Ask, now: real): set<Id> {
    if !a.staged && Reserve(s, a, now).Done? && Orphans(s, a.key, a.top) then {s.keyed[a.key]} else {}
  }

  /** A reservation at once keeps the registry coherent exactly when it leaves no orphan. */
  lemma DirectReserveCoherentIff(s: State, a: Ask, now: real)
    requires Sound(s) && Coherent(s) && !a.staged && a.supplants == {} && Reserve(s, a, now).Done?
    ensures Coherent(Reserve(s, a, now).state) <==> !Orphans(s, a.key, a.top)
  {
    if Orphans(s, a.key, a.top) {
      OrphanStaysOpen(s, a, now);
    } else {
      DirectReserveKeeps(s, a, now);
      DirectReserveKeepsKeys(s, a, now, {});
      assert {} + Orphaned(s, a, now) == {};
    }
  }

  lemma OrphanStaysOpen(s: State, a: Ask, now: real)
    requires Sound(s) && !a.staged && a.supplants == {} && Reserve(s, a, now).Done? && Orphans(s, a.key, a.top)
    ensures !Coherent(Reserve(s, a, now).state)
  {
    assert a.key in s.keyed;
    var x := s.keyed[a.key];
    var c, reg, after := Claimed(s, a).(next := s.next + 1), Drafted(s, a), Reserve(s, a, now).state;
    hide *;
    SoundParts(s);
    KeyedIsOpen(s, a.key);
    DirectReserve(s, a, now);
    ClaimShape(s, a);
    SameFound(s, c, a.key, a.top);
    HeldHasTheRoute(s, a.key, a.top);
    NotOfThatRoute(s, a.key, a.top);
    SameRows(s, c, x);
    PublishedTables(c, s.next, reg, now, x);
    OutOfItsTable(after, x);
  }

  lemma StagedReserveKeepsKeys(s: State, a: Ask, now: real, strays: set<Id>)
    requires AllKeyed(s, strays) && a.staged && Reserve(s, a, now).Done?
    ensures AllKeyed(Reserve(s, a, now).state, strays)
  {
    hide Conflict, Floor;
    SameKeyed(s, Reserve(s, a, now).state, strays);
  }

  lemma DirectReserveKeepsKeys(s: State, a: Ask, now: real, strays: set<Id>)
    requires Sound(s) && AllKeyed(s, strays) && !a.staged && a.supplants == {} && Reserve(s, a, now).Done?
    ensures AllKeyed(Reserve(s, a, now).state, strays + Orphaned(s, a, now))
  {
    var c, reg := Claimed(s, a).(next := s.next + 1), Drafted(s, a);
    SoundParts(s);
    DirectReserve(s, a, now);
    OnlyHeldInTheWay(s, a.key, a.top, a.owner, now);
    ClaimShape(s, a);
    TakenIsSound(s, c);
    SoundParts(c);
    SameFound(s, c, a.key, a.top);
    ClaimFindsTheSame(s, c, a.key, a.top);
    SameOpen(s, c);
    SameKeyed(s, c, strays);
    hide Reserve, Sound, Published, Linked, OnlyHeldAt, AllKeyed, Claimed, Drafted;
    PublishKeepsKeys(c, s.next, reg, now, strays, Orphaned(s, a, now));
  }

  lemma PublishKeepsKeys(s: State, id: Id, reg: Registration, now: real, strays: set<Id>, gone: set<Id>)
    requires Linked(s, {}, {}) && AllKeyed(s, strays) && OnlyHeldAt(s, reg.key, reg.top) && !reg.closed && !reg.staged
    requires Orphans(s, reg.key, reg.top) ==> s.keyed[reg.key] in gone
    ensures AllKeyed(Published(s, id, reg, now), strays + gone)
  {
    var held := HeldFor(s, reg.key, reg.top);
    var adopted := if held.Some? then Adopted(reg, s.regs[held.value], held.value) else reg;
    var cleared := if held.Some? then Remove(s, held.value) else s;
    var taken := TakenOver(cleared, reg.key.ns, reg.owner, now);
    ClearedKeys(s, reg.key, reg.top, cleared, gone);
    if held.Some? {
      RemoveKeepsKeys(s, held.value, strays);
      MoreStrays(cleared, strays - {held.value}, strays);
    }
    hide HeldFor, Remove, Linked, AllKeyed, Listed, Answering, OnlyHeldAt;
    SameOpen(cleared, taken);
    SameKeyed(cleared, taken, strays);
    ListKeepsKeys(taken, id, adopted, strays, gone);
  }

  /** Once the held share is gone, the entry of the key, if any, is one of another route. */
  lemma ClearedKeys(s: State, key: Key, top: bool, cleared: State, gone: set<Id>)
    requires Linked(s, {}, {}) && OnlyHeldAt(s, key, top) && (Orphans(s, key, top) ==> s.keyed[key] in gone)
    requires cleared == match HeldFor(s, key, top) case Some(h) => Remove(s, h) case None => s
    ensures key in cleared.keyed && Open(cleared, cleared.keyed[key]) ==> cleared.keyed[key] in gone
  {
    var held := HeldFor(s, key, top);
    if held.Some? {
      RemoveKeyed(s, held.value);
      RemoveRows(s, held.value);
    }
    hide Remove, HeldFor;
    if key in cleared.keyed {
      var x := cleared.keyed[key];
      assert Open(s, x);
      assert RouteAt(s, x) == RouteOf(key, top) ==> IsRouted(s, x);
    }
  }

  lemma KeyedIsOpen(s: State, k: Key)
    requires KeysLinked(s) && k in s.keyed
    ensures Open(s, s.keyed[k]) && s.keyed[k] in s.regs && s.regs[s.keyed[k]].key == k
  {
  }

  lemma NotOfThatRoute(s: State, key: Key, top: bool)
    requires Orphans(s, key, top)
    ensures key in s.keyed && s.keyed[key] in s.regs && RouteAt(s, s.keyed[key]) != RouteOf(key, top)
  {
  }

  lemma SameRows(s: State, c: State, x: Id)
    requires c == s.(namespaces := c.namespaces, next := c.next)
    ensures c.regs == s.regs && (Open(c, x) <==> Open(s, x))
  {
  }

  lemma OutOfItsTable(s: State, x: Id)
    requires Open(s, x) && x in s.regs && s.regs[x].key in s.keyed && s.keyed[s.regs[x].key] != x
    ensures !Coherent(s)
  {
  }

  lemma HeldHasTheRoute(s: State, key: Key, top: bool)
    ensures HeldFor(s, key, top).Some? ==>
      HeldFor(s, key, top).value in s.regs && RouteAt(s, HeldFor(s, key, top).value) == RouteOf(key, top)
  {
    hide Answering;
  }

  lemma PublishedTables(s: State, id: Id, reg: Registration, now: real, x: Id)
    requires Open(s, x) && x != id && HeldFor(s, reg.key, reg.top) != Some(x) && x in s.regs
    ensures var after := Published(s, id, reg, now);
            Open(after, x) && x in after.regs && after.regs[x] == s.regs[x] && reg.key in after.keyed
              && after.keyed[reg.key] == id
  {
    var held := HeldFor(s, reg.key, reg.top);
    if held.Some? {
      RemoveRows(s, held.value);
    }
    hide Remove, HeldFor, Noted;
  }

  // ----- serving keeps the registry sound -----

  /** Only what no table and no marker depends on has changed in the rows. */
  ghost predicate Alike(s: State, after: State) {
    && after == s.(regs := after.regs, namespaces := after.namespaces)
    && after.regs.Keys == s.regs.Keys && after.namespaces.Keys == s.namespaces.Keys
    && forall id: Id :: id in s.regs ==> SameStanding(s.regs[id], after.regs[id])
  }

  predicate SameStanding(a: Registration, b: Registration) {
    && a.key == b.key && a.top == b.top && a.closed == b.closed && a.staged == b.staged
    && a.checksum == b.checksum && a.marker == b.marker && (b.active ==> a.active || (!b.closed && !b.staged))
  }

  lemma AlikeIsSound(s: State, after: State)
    requires Sound(s) && Alike(s, after)
    ensures Sound(after) && Follows(s, after)
  {
    assert forall r :: Answering(after, r) == Answering(s, r);
    assert forall r :: Floor(after, r) == Floor(s, r);
    assert forall x: Id :: Open(after, x) <==> Open(s, x);
    assert Drafts(after);
    hide Answering, Floor, Drafts;
    forall x: Id | Open(after, x) ensures IsRouted(after, x) {
      assert IsRouted(s, x);
    }
    forall r ensures Above(after, r) && Standing(s, r) <= Standing(after, r) {
      assert Above(s, r);
    }
    forall x: Id ensures Draft(after, x) {
      assert Draft(s, x);
    }
    assert KeysLinked(after) && RoutesLinked(after);
  }

  lemma WroteIsSound(s: State, id: Id, c: Option<Checksum>)
    requires Sound(s) && Open(s, id)
    ensures Sound(Wrote(s, id, c)) && Follows(s, Wrote(s, id, c))
  {
    SoundParts(s);
    hide Linked, Marked, Drafts, Follows, Wrote;
    WroteTables(s, id, c);
    WroteMarks(s, id, c);
  }

  /** What a write leaves as it was, and what it makes of its own row. */
  lemma WroteShape(s: State, id: Id, c: Option<Checksum>)
    requires id in s.regs
    ensures var after, reg := Wrote(s, id, c), s.regs[id];
            && after == s.(regs := after.regs, prints := after.prints, floors := after.floors, seen := after.seen)
            && after.regs == s.regs[id := after.regs[id]]
            && SameRow(reg, after.regs[id]) && after.regs[id].checksum == c
            && (if reg.checksum == c then
                  after.regs[id].marker == reg.marker && after.floors == s.floors && after.seen == s.seen
                else
                  && after.regs[id].marker == reg.marker + 1
                  && after.floors == s.floors[RouteAt(s, id) := reg.marker + 1]
                  && after.seen == Noted(s.seen, RouteAt(s, id), reg.marker + 1, c))
  {
  }

  predicate SameRow(a: Registration, b: Registration) {
    a.key == b.key && a.top == b.top && a.closed == b.closed && a.staged == b.staged && a.active == b.active
  }

  lemma WroteTables(s: State, id: Id, c: Option<Checksum>)
    requires Linked(s, {}, {}) && Drafts(s) && Open(s, id)
    ensures Linked(Wrote(s, id, c), {}, {}) && Drafts(Wrote(s, id, c))
  {
    WroteShape(s, id, c);
    hide Wrote;
    RowChanged(s, Wrote(s, id, c), id);
  }

  lemma RowChanged(s: State, after: State, id: Id)
    requires Linked(s, {}, {}) && Drafts(s) && id in s.regs && id in after.regs
    requires after.regs == s.regs[id := after.regs[id]] && SameRow(s.regs[id], after.regs[id])
    requires after == s.(regs := after.regs, prints := after.prints, floors := after.floors, seen := after.seen)
    ensures Linked(after, {}, {}) && Drafts(after)
  {
    assert forall q :: Answering(after, q) == Answering(s, q);
    assert forall x: Id :: Open(after, x) <==> Open(s, x);
    assert forall x: Id :: x in s.regs <==> x in after.regs;
    assert forall x: Id :: x in s.regs ==> SameRow(s.regs[x], after.regs[x]);
    assert Drafts(after);
    hide Answering, Open, Drafts;
    forall x: Id | Open(after, x) ensures IsRouted(after, x) {
      assert Open(s, x) && IsRouted(s, x);
    }
    assert KeysLinked(after) && RoutesLinked(after);
  }

  lemma WroteMarks(s: State, id: Id, c: Option<Checksum>)
    requires Linked(s, {}, {}) && Marked(s) && Open(s, id)
    ensures Marked(Wrote(s, id, c)) && Follows(s, Wrote(s, id, c))
  {
    var after, r := Wrote(s, id, c), RouteAt(s, id);
    assert IsRouted(s, id) && Above(s, r) && RoutesLinked(s);
    WroteShape(s, id, c);
    hide Wrote;
    forall q ensures Above(after, q) && Standing(s, q) <= Standing(after, q) && Floor(s, q) <= Floor(after, q) {
      assert Above(s, q);
      AnswersAlike(s, after, q);
      FloorMoves(s, after, id, q);
      assert q != r && Answering(s, q).Some? ==> Answering(s, q).value != id;
      if q == r {
        WroteHere(s, after, id, c);
      } else {
        WroteElsewhere(s, after, id, q, r, s.regs[id].marker + 1, c);
      }
    }
    assert forall m :: m in s.seen ==> m in after.seen && after.seen[m] == s.seen[m];
    hide Answering, Floor;
    forall x: Id ensures Draft(after, x) {
      assert Draft(s, x);
    }
  }

  lemma AnswersAlike(s: State, after: State, q: Route)
    requires after.top == s.top && after.nested == s.nested
    ensures Answering(after, q) == Answering(s, q)
  {
  }

  lemma FloorMoves(s: State, after: State, id: Id, q: Route)
    requires id in s.regs && Above(s, RouteAt(s, id)) && Answering(s, RouteAt(s, id)) == Some(id)
    requires after.floors == s.floors || after.floors == s.floors[RouteAt(s, id) := s.regs[id].marker + 1]
    ensures Floor(s, q) <= Floor(after, q) && (q != RouteAt(s, id) ==> Floor(after, q) == Floor(s, q))
    ensures after.floors == s.floors ==> Floor(after, q) == Floor(s, q)
    ensures q == RouteAt(s, id) && after.floors != s.floors ==> Floor(after, q) == s.regs[id].marker + 1
  {
    hide Answering;
  }

  lemma WroteElsewhere(s: State, after: State, id: Id, q: Route, r: Route, marker: nat, c: Option<Checksum>)
    requires Above(s, q) && Answering(after, q) == Answering(s, q) && Floor(after, q) == Floor(s, q)
    requires Answering(s, q) != Some(id)
    requires id in s.regs && id in after.regs && after.regs == s.regs[id := after.regs[id]]
    requires after.seen == s.seen || (r != q && after.seen == Noted(s.seen, r, marker, c))
    ensures Above(after, q) && Standing(s, q) <= Standing(after, q)
  {
    hide Answering, Floor;
    assert forall x: Mark :: x.route == q ==>
      (x in after.seen <==> x in s.seen) && (x in s.seen ==> after.seen[x] == s.seen[x]);
  }

  lemma WroteHere(s: State, after: State, id: Id, c: Option<Checksum>)
    requires id in s.regs && id in after.regs && Above(s, RouteAt(s, id))
    requires Answering(s, RouteAt(s, id)) == Some(id) && Answering(after, RouteAt(s, id)) == Some(id)
    requires after.regs[id].checksum == c
    requires var r, reg := RouteAt(s, id), s.regs[id];
             if reg.checksum == c then
               after.regs[id].marker == reg.marker && Floor(after, r) == Floor(s, r) && after.seen == s.seen
             else
               && after.regs[id].marker == reg.marker + 1 && Floor(after, r) <= reg.marker + 1
               && after.seen == Noted(s.seen, r, reg.marker + 1, c)
    ensures Above(after, RouteAt(s, id)) && Standing(s, RouteAt(s, id)) <= Standing(after, RouteAt(s, id))
  {
    hide Answering, Floor;
  }

  lemma HeldAreAlike(s: State, ns: Name, owner: Owner, deadline: real)
    ensures Alike(s, HoldNamespace(s, ns, owner, deadline))
  {
  }

  /** Removal takes nothing into the tables. */
  lemma {:induction false} RemoveAllKeyed(s: State, ids: seq<Id>)
    ensures forall k :: k in RemoveAll(s, ids).keyed ==> k in s.keyed && RemoveAll(s, ids).keyed[k] == s.keyed[k]
    decreases |ids|
  {
    if ids != [] {
      RemoveAllKeyed(Remove(s, ids[0]), ids[1..]);
      RemoveKeyed(s, ids[0]);
      hide Remove;
    }
  }

  lemma RemoveKeyed(s: State, id: Id)
    ensures forall k :: k in Remove(s, id).keyed ==> k in s.keyed && Remove(s, id).keyed[k] == s.keyed[k]
  {
    hide Deserted;
  }

  lemma RemoveAllIsSound(s: State, ids: seq<Id>)
    requires Sound(s)
    ensures Sound(RemoveAll(s, ids)) && Follows(s, RemoveAll(s, ids))
  {
    assert {} - Ids(ids) == {};
    hide Linked, Marked, Drafts, Follows, RemoveAll;
    RemoveAllKeeps(s, ids, {}, {});
    RemoveAllRows(s, ids);
  }

  lemma PopIsSound(s: State, ns: Name)
    requires Sound(s) && Unkeyed(s, ns)
    ensures var after := s.(namespaces := s.namespaces - {ns});
            Sound(after) && Follows(s, after)
  {
    var after := s.(namespaces := s.namespaces - {ns});
    assert after == s.(namespaces := after.namespaces, staged := after.staged, next := after.next);
    DraftsStay(s, after);
    hide Linked, Marked, Follows, Drafts, Unkeyed;
    PopLinks(s, ns, {}, {});
    SameMarks(s, after);
  }

  lemma ExpireIsSound(s: State, ns: Name, now: real, order: seq<Id>)
    requires Sound(s)
    ensures Sound(Expire(s, ns, now, order)) && Follows(s, Expire(s, ns, now, order))
  {
    hide Sound, Follows, RemoveAll, Unkeyed;
    if ns in s.namespaces {
      RemoveAllIsSound(s, order);
      var mid, after := RemoveAll(s, order), Expire(s, ns, now, order);
      if ns in mid.namespaces {
        if ns in after.namespaces {
          TakenIsSound(mid, after);
        } else {
          PopIsSound(mid, ns);
        }
        FollowsOn(s, mid, after);
      }
    } else {
      FollowsItself(s);
    }
  }

  lemma CloseIsSound(s: State, ns: Name, owner: Owner, order: seq<Id>)
    requires Sound(s) && forall k :: k in s.keyed && k.ns == ns ==> s.keyed[k] in order
    ensures Sound(CloseNamespace(s, ns, owner, order)) && Follows(s, CloseNamespace(s, ns, owner, order))
  {
    if !Owns(s, ns, owner) || StillServes(s, ns, owner) {
      FollowsItself(s);
    } else {
      var mid := RemoveAll(s, order);
      RemoveAllIsSound(s, order);
      NoneLeft(s, ns, order);
      hide Sound, Follows, RemoveAll, Unkeyed;
      PopIsSound(mid, ns);
      FollowsOn(s, mid, mid.(namespaces := mid.namespaces - {ns}));
    }
  }

  lemma NoneLeft(s: State, ns: Name, order: seq<Id>)
    requires Sound(s) && Sound(RemoveAll(s, order)) && forall k :: k in s.keyed && k.ns == ns ==> s.keyed[k] in order
    ensures Unkeyed(RemoveAll(s, order), ns)
  {
    var mid := RemoveAll(s, order);
    SoundParts(s);
    SoundParts(mid);
    RemoveAllRows(s, order);
    RemoveAllKeyed(s, order);
    hide RemoveAll, Sound, Linked, Drafts, Marked;
    forall k | k in mid.keyed ensures k.ns != ns {
      KeyedIsOpen(mid, k);
      KeyedIsOpen(s, k);
      assert mid.keyed[k] !in Ids(order);
    }
  }
}
