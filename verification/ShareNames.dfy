/** Names stay unambiguous: a first path segment is a namespace or a top-level share, and reservations in
    the making do not claim what another claims; except where one says that it supplants the other. And a
    namespace changes hands by right only. */
module ShareNames {
  import opened Wrappers
  import opened ShareRegistry
  import opened ShareTables
  import opened ShareSteps
  import opened ShareRuns

  // ----- what is unambiguous -----

  /** A top-level share has the name of a namespace only if someone claimed a URL in that namespace to
      supplant the share. */
  ghost predicate TopsApart(s: State) {
    forall p :: p in s.top && p in s.namespaces ==>
      exists x: Id :: x in s.regs && s.regs[x].key.ns == p && s.top[p] in s.regs[x].supplants
  }

  predicate OneSupplants(s: State, a: Id, b: Id) {
    a in s.regs && b in s.regs && (a in s.regs[b].supplants || b in s.regs[a].supplants)
  }

  /** Two reservations in the making that claim the same, or of which one claims the other's namespace
      as a top-level route, are such that one supplants the other. */
  ghost predicate DraftsApart(s: State) {
    forall a, b :: a in s.staged && b in s.staged && a != b && !Clear(s, a, b) ==> OneSupplants(s, a, b)
  }

  /** So are a reservation in the making and a top-level share of its namespace's name. */
  ghost predicate DraftsBelowTops(s: State) {
    forall x :: x in s.staged && x in s.regs && s.regs[x].key.ns in s.top ==>
      OneSupplants(s, x, s.top[s.regs[x].key.ns])
  }

  ghost predicate Unambiguous(s: State) { TopsApart(s) && DraftsApart(s) && DraftsBelowTops(s) }

  // ----- what no step changes of a claim -----

  predicate SameClaim(a: Registration, b: Registration) {
    a.key == b.key && a.top == b.top && a.owner == b.owner && a.supplants == b.supplants
  }

  ghost predicate SameClaims(s: State, after: State) {
    forall x: Id :: x in s.regs ==> x in after.regs && SameClaim(s.regs[x], after.regs[x])
  }

  /** Nothing is added to what answers at the top, to the namespaces and to the reservations. */
  ghost predicate Shrinks(s: State, after: State) {
    && SameClaims(s, after) && after.namespaces.Keys <= s.namespaces.Keys && after.staged <= s.staged
    && forall p :: p in after.top ==> p in s.top && after.top[p] == s.top[p]
  }

  lemma ShrinksOn(a: State, b: State, c: State)
    requires Shrinks(a, b) && Shrinks(b, c)
    ensures Shrinks(a, c)
  {
    forall x: Id | x in a.regs ensures x in c.regs && SameClaim(a.regs[x], c.regs[x]) {
      assert x in b.regs && SameClaim(a.regs[x], b.regs[x]);
    }
  }

  lemma ShrinkingStays(s: State, after: State)
    requires Unambiguous(s) && Shrinks(s, after) && s.staged <= s.regs.Keys
    requires forall p :: p in s.top ==> s.top[p] in s.regs
    ensures Unambiguous(after)
  {
    forall p | p in after.top && p in after.namespaces
      ensures exists x: Id :: x in after.regs && after.regs[x].key.ns == p && after.top[p] in after.regs[x].supplants {
      var x: Id :| x in s.regs && s.regs[x].key.ns == p && s.top[p] in s.regs[x].supplants;
      assert SameClaim(s.regs[x], after.regs[x]);
    }
    forall a, b | a in after.staged && b in after.staged && a != b && !Clear(after, a, b)
      ensures OneSupplants(after, a, b) {
      assert SameClaim(s.regs[a], after.regs[a]) && SameClaim(s.regs[b], after.regs[b]);
      assert !Clear(s, a, b);
    }
    forall x | x in after.staged && x in after.regs && after.regs[x].key.ns in after.top
      ensures OneSupplants(after, x, after.top[after.regs[x].key.ns]) {
      var p := after.regs[x].key.ns;
      assert SameClaim(s.regs[x], after.regs[x]) && SameClaim(s.regs[s.top[p]], after.regs[s.top[p]]);
    }
  }

  lemma {:induction false} RemoveAllShrinks(s: State, ids: seq<Id>)
    ensures Shrinks(s, RemoveAll(s, ids))
    decreases |ids|
  {
    if ids != [] {
      var after := Remove(s, ids[0]);
      RemoveShrinks(s, ids[0]);
      RemoveAllShrinks(after, ids[1..]);
      hide Remove, SameClaim;
      ShrinksOn(s, after, RemoveAll(after, ids[1..]));
    }
  }

  lemma RemoveShrinks(s: State, id: Id)
    ensures Shrinks(s, Remove(s, id))
  {
    hide Floor, Deserted;
  }

  // ----- quiet steps -----

  lemma QuietShrinks(s: State, e: Event)
    requires e.Activating? || e.Reattaching? || e.Holding? || e.BeginningClose? || e.HoldingAll?
    ensures Shrinks(s, Next(s, e))
  {
    hide Activated, Reattached, HoldOne, BeginClose, HoldNamespace;
    match e {
      case HoldingAll(ns, owner, deadline) => HeldShrinks(s, ns, owner, deadline);
      case Activating(id) => ActivatedShrinks(s, id);
      case Reattaching(id) => ReattachedShrinks(s, id);
      case Holding(id) => HeldOneShrinks(s, id);
      case BeginningClose(ns, owner) => BeginShrinks(s, ns, owner);
    }
  }

  lemma HeldShrinks(s: State, ns: Name, owner: Owner, deadline: real)
    ensures Shrinks(s, HoldNamespace(s, ns, owner, deadline))
  {
  }

  lemma ActivatedShrinks(s: State, id: Id)
    ensures Shrinks(s, Activated(s, id))
  {
  }

  lemma ReattachedShrinks(s: State, id: Id)
    ensures Shrinks(s, Reattached(s, id))
  {
  }

  lemma HeldOneShrinks(s: State, id: Id)
    ensures Shrinks(s, HoldOne(s, id))
  {
  }

  lemma BeginShrinks(s: State, ns: Name, owner: Owner)
    ensures Shrinks(s, BeginClose(s, ns, owner))
  {
  }

  lemma WroteShrinks(s: State, id: Id, c: Option<Checksum>)
    requires id in s.regs
    ensures Shrinks(s, Wrote(s, id, c))
  {
    hide Noted, RouteOf;
  }

  lemma ExpireShrinks(s: State, ns: Name, now: real, order: seq<Id>)
    ensures Shrinks(s, Expire(s, ns, now, order))
  {
    RemoveAllShrinks(s, order);
    var mid, after := RemoveAll(s, order), Expire(s, ns, now, order);
    ExpiredIs(s, ns, now, order);
    hide RemoveAll, Expire;
    if after == s {
      assert Shrinks(s, s);
    } else {
      assert Shrinks(mid, after);
      ShrinksOn(s, mid, after);
    }
  }

  lemma ExpiredIs(s: State, ns: Name, now: real, order: seq<Id>)
    ensures var mid, after := RemoveAll(s, order), Expire(s, ns, now, order);
            after == s || (after == mid.(namespaces := after.namespaces)
              && after.namespaces.Keys <= mid.namespaces.Keys)
  {
    hide RemoveAll, Unkeyed;
    var mid, after := RemoveAll(s, order), Expire(s, ns, now, order);
    if ns in s.namespaces && ns in mid.namespaces {
      var n := mid.namespaces[ns];
      var over := if n.holdUntil.Some? && n.holdUntil.value <= now then n.(holdUntil := None) else n;
      assert after == mid.(namespaces := mid.namespaces - {ns})
        || after == mid.(namespaces := mid.namespaces[ns := over]);
    }
  }

  lemma CloseShrinks(s: State, ns: Name, owner: Owner, order: seq<Id>)
    ensures Shrinks(s, CloseNamespace(s, ns, owner, order))
  {
    RemoveAllShrinks(s, order);
    hide RemoveAll, StillServes;
    var mid, after := RemoveAll(s, order), CloseNamespace(s, ns, owner, order);
    if after != s {
      assert after == mid.(namespaces := mid.namespaces - {ns});
      assert Shrinks(mid, after);
      ShrinksOn(s, mid, after);
    } else {
      assert Shrinks(s, s);
    }
  }

  // ----- reserving -----

  /** What a reservation without a conflict may rely on. */
  lemma ClaimIsClear(s: State, key: Key, top: bool, owner: Owner, supplants: set<Id>, ignored: set<Id>, now: real)
    requires !Conflict(s, key, top, owner, supplants, ignored, now)
    ensures key.ns in s.top ==> s.top[key.ns] in supplants
    ensures top ==> key.path != key.ns && key.path !in s.namespaces
    ensures forall o :: o in s.staged && o in s.regs && o !in ignored && o !in supplants ==>
      !Clashes(s.regs[o], key, top)
    ensures top && key.path in s.top && s.top[key.path] in s.regs ==>
      s.top[key.path] in supplants || s.regs[s.top[key.path]].key.ns == key.ns
  {
    hide Blocks, Clashes, MayRejoin;
  }

  lemma ClashesIsCollides(a: Registration, b: Registration)
    ensures Clashes(a, b.key, b.top) <==> Collide(a, b)
    ensures Collide(a, b) <==> Collide(b, a)
  {
  }

  lemma StagedReserveStays(s: State, a: Ask, now: real)
    requires Sound(s) && Unambiguous(s) && a.staged && Reserve(s, a, now).Done?
    ensures Unambiguous(Reserve(s, a, now).state)
  {
    var after, id, reg := Reserve(s, a, now).state, s.next, Drafted(s, a);
    assert !Conflict(s, a.key, a.top, a.owner, a.supplants, {}, now);
    ClaimIsClear(s, a.key, a.top, a.owner, a.supplants, {}, now);
    SoundParts(s);
    StagedReserve(s, a, now);
    StagedShape(s, a);
    StagedAreThere(s);
    hide Sound, Linked, Marked, Drafts, Conflict, Reserve, Claimed, Drafted;
    forall p | p in after.top && p in after.namespaces
      ensures exists x: Id :: x in after.regs && after.regs[x].key.ns == p && after.top[p] in after.regs[x].supplants {
      if p in s.namespaces {
        var x: Id :| x in s.regs && s.regs[x].key.ns == p && s.top[p] in s.regs[x].supplants;
        assert after.regs[x] == s.regs[x];
      } else {
        assert after.regs[id].key.ns == p;
      }
    }
    forall x, y | x in after.staged && y in after.staged && x != y && !Clear(after, x, y)
      ensures OneSupplants(after, x, y) {
      NewDraftApart(s, after, id, reg, x, y);
    }
  }

  lemma StagedShape(s: State, a: Ask)
    ensures Claimed(s, a).namespaces.Keys == s.namespaces.Keys + {a.key.ns}
    ensures Drafted(s, a).supplants == a.supplants && Drafted(s, a).owner == a.owner
  {
    hide Floor;
  }

  lemma StagedAreThere(s: State)
    requires Sound(s)
    ensures s.staged <= s.regs.Keys && forall p :: p in s.top ==> s.top[p] in s.regs && Open(s, s.top[p])
  {
    assert Drafts(s);
    hide Marked, AllRouted, LostToNewer, KeysLinked, Drafts;
    forall p | p in s.top ensures s.top[p] in s.regs && Open(s, s.top[p]) {
      assert Answering(s, AtTop(p)) == Some(s.top[p]);
    }
    assert forall x :: x in s.staged ==> x in s.regs by { assert Drafts(s); DraftRows(s); }
  }

  lemma DraftRows(s: State)
    requires Drafts(s)
    ensures s.staged <= s.regs.Keys
  {
  }

  lemma NewDraftApart(s: State, after: State, id: Id, reg: Registration, x: Id, y: Id)
    requires DraftsApart(s) && s.staged <= s.regs.Keys && id !in s.regs
    requires after.regs == s.regs[id := reg] && after.staged == s.staged + {id}
    requires forall o :: o in s.staged && o !in reg.supplants ==> !Clashes(s.regs[o], reg.key, reg.top)
    requires x in after.staged && y in after.staged && x != y && !Clear(after, x, y)
    ensures OneSupplants(after, x, y)
  {
    if x == id {
      ClashesIsCollides(s.regs[y], reg);
    } else if y == id {
      ClashesIsCollides(s.regs[x], reg);
    } else {
      assert !Clear(s, x, y);
      assert OneSupplants(s, x, y);
    }
    hide Collide, Clashes;
  }

  /** What a publication at once adds. */
  lemma DirectShape(s: State, a: Ask, now: real)
    requires Sound(s) && !a.staged && Reserve(s, a, now).Done?
    ensures var after := Reserve(s, a, now).state;
            && SameClaims(s, after) && after.staged <= s.staged
            && after.namespaces.Keys <= s.namespaces.Keys + {a.key.ns}
            && (forall p :: p in after.top ==>
                  (p in s.top && after.top[p] == s.top[p]) || (a.top && p == a.key.path && after.top[p] == s.next))
            && s.next in after.regs && after.regs[s.next].key == a.key && after.regs[s.next].top == a.top
  {
    var c, reg := Claimed(s, a).(next := s.next + 1), Drafted(s, a);
    SoundParts(s);
    DirectReserve(s, a, now);
    ClaimShape(s, a);
    StagedShape(s, a);
    hide Sound, Linked, Marked, Drafts, Reserve, Published, Conflict, Claimed, Drafted;
    PublishedShape(c, s.next, reg, now);
  }

  lemma PublishedShape(s: State, id: Id, reg: Registration, now: real)
    requires id !in s.regs
    ensures var after := Published(s, id, reg, now);
            && SameClaims(s, after) && after.staged <= s.staged && after.namespaces.Keys <= s.namespaces.Keys
            && (forall p :: p in after.top ==>
                  (p in s.top && after.top[p] == s.top[p]) || (reg.top && p == reg.key.path && after.top[p] == id))
            && id in after.regs && after.regs[id].key == reg.key && after.regs[id].top == reg.top
  {
    var held := HeldFor(s, reg.key, reg.top);
    var cleared := if held.Some? then Remove(s, held.value) else s;
    var adopted := if held.Some? && held.value in s.regs then Adopted(reg, s.regs[held.value], held.value) else reg;
    var taken := TakenOver(cleared, reg.key.ns, reg.owner, now);
    assert Shrinks(s, cleared) by {
      if held.Some? {
        RemoveShrinks(s, held.value);
      }
    }
    assert Published(s, id, reg, now) == Listed(taken, id, adopted) by { hide HeldFor, Remove, Listed, TakenOver; }
    TakenShape(cleared, reg.key.ns, reg.owner, now);
    hide HeldFor, Remove, Published, TakenOver, Noted, SameClaim;
    assert SameClaims(s, Listed(taken, id, adopted)) by { ListedClaims(s, taken, id, adopted); }
  }

  lemma ListedClaims(s: State, taken: State, id: Id, reg: Registration)
    requires id !in s.regs && SameClaims(s, taken)
    ensures SameClaims(s, Listed(taken, id, reg))
  {
    hide Noted, SameClaim;
  }

  lemma DirectReserveStays(s: State, a: Ask, now: real)
    requires Sound(s) && Unambiguous(s) && !a.staged && a.supplants == {} && Reserve(s, a, now).Done?
    ensures Unambiguous(Reserve(s, a, now).state)
  {
    var after := Reserve(s, a, now).state;
    assert !Conflict(s, a.key, a.top, a.owner, a.supplants, {}, now);
    ClaimIsClear(s, a.key, a.top, a.owner, a.supplants, {}, now);
    DirectShape(s, a, now);
    StagedAreThere(s);
    hide Sound, Conflict, Reserve, Clashes;
    DirectTopsApart(s, after, a);
    DraftsStayApart(s, after);
    forall x | x in after.staged && x in after.regs && after.regs[x].key.ns in after.top
      ensures OneSupplants(after, x, after.top[after.regs[x].key.ns]) {
      assert !Clashes(s.regs[x], a.key, a.top);
      DraftBelowOldTop(s, after, a, x);
    }
  }

  lemma DirectTopsApart(s: State, after: State, a: Ask)
    requires TopsApart(s) && SameClaims(s, after) && a.key.ns !in s.top
    requires a.top ==> a.key.path != a.key.ns && a.key.path !in s.namespaces
    requires after.namespaces.Keys <= s.namespaces.Keys + {a.key.ns}
    requires forall p :: p in after.top ==>
      (p in s.top && after.top[p] == s.top[p]) || (a.top && p == a.key.path && after.top[p] == s.next)
    ensures TopsApart(after)
  {
    forall p | p in after.top && p in after.namespaces
      ensures exists x: Id :: x in after.regs && after.regs[x].key.ns == p && after.top[p] in after.regs[x].supplants {
      var x: Id :| x in s.regs && s.regs[x].key.ns == p && s.top[p] in s.regs[x].supplants;
      assert SameClaim(s.regs[x], after.regs[x]);
    }
  }

  lemma DraftBelowOldTop(s: State, after: State, a: Ask, x: Id)
    requires DraftsBelowTops(s) && SameClaims(s, after) && x in s.staged && x in s.regs
    requires !Clashes(s.regs[x], a.key, a.top)
    requires x in after.regs && after.regs[x].key.ns in after.top
    requires forall p :: p in s.top ==> s.top[p] in s.regs
    requires forall p :: p in after.top ==>
      (p in s.top && after.top[p] == s.top[p]) || (a.top && p == a.key.path && after.top[p] == s.next)
    ensures OneSupplants(after, x, after.top[after.regs[x].key.ns])
  {
    var p := after.regs[x].key.ns;
    assert SameClaim(s.regs[x], after.regs[x]);
    assert p in s.top && after.top[p] == s.top[p];
    assert SameClaim(s.regs[s.top[p]], after.regs[s.top[p]]);
    assert OneSupplants(s, x, s.top[p]);
  }

  lemma DraftsStayApart(s: State, after: State)
    requires DraftsApart(s) && SameClaims(s, after) && after.staged <= s.staged <= s.regs.Keys
    ensures DraftsApart(after)
  {
    forall a, b | a in after.staged && b in after.staged && a != b && !Clear(after, a, b)
      ensures OneSupplants(after, a, b) {
      assert SameClaim(s.regs[a], after.regs[a]) && SameClaim(s.regs[b], after.regs[b]);
      assert !Clear(s, a, b);
      assert OneSupplants(s, a, b);
    }
  }

  // ----- committing -----

  lemma InstallShape(s: State, id: Id)
    requires id in s.regs
    ensures var after, reg := Install(s, id), s.regs[id];
            && SameClaims(s, after) && after.regs.Keys == s.regs.Keys && after.staged == s.staged - {id}
            && after.namespaces.Keys == s.namespaces.Keys
            && (forall p :: p in after.top ==>
                  (p in s.top && after.top[p] == s.top[p]) || (reg.top && p == reg.key.path && after.top[p] == id))
  {
    ReadyShape(s, id);
    hide Ready, Noted;
  }

  lemma {:induction false} InstallAllShape(s: State, batch: seq<Id>)
    requires Ids(batch) <= s.regs.Keys
    ensures var after := InstallAll(s, batch);
            && SameClaims(s, after) && after.regs.Keys == s.regs.Keys && after.staged == s.staged - Ids(batch)
            && after.namespaces.Keys == s.namespaces.Keys
            && (forall p :: p in after.top ==>
                  (p in s.top && after.top[p] == s.top[p])
                    || (after.top[p] in Ids(batch) && s.regs[after.top[p]].top && s.regs[after.top[p]].key.path == p))
    decreases |batch|
  {
    if batch == [] {
      assert s.staged - Ids(batch) == s.staged;
    } else {
      var after := Install(s, batch[0]);
      var end := InstallAll(after, batch[1..]);
      assert batch[0] in Ids(batch);
      assert Ids(batch) == {batch[0]} + Ids(batch[1..]);
      InstallShape(s, batch[0]);
      InstallAllShape(after, batch[1..]);
      assert InstallAll(s, batch) == end;
      hide Install, InstallAll;
      forall x: Id | x in s.regs ensures x in end.regs && SameClaim(s.regs[x], end.regs[x]) {
        assert SameClaim(s.regs[x], after.regs[x]) && SameClaim(after.regs[x], end.regs[x]);
      }
      forall p | p in end.top
        ensures (p in s.top && end.top[p] == s.top[p])
          || (end.top[p] in Ids(batch) && s.regs[end.top[p]].top && s.regs[end.top[p]].key.path == p) {
        if end.top[p] in Ids(batch[1..]) {
          assert SameClaim(s.regs[end.top[p]], after.regs[end.top[p]]);
        }
      }
    }
  }

  /** What a commit that succeeds adds. */
  lemma CommitShape(s: State, batch: seq<Id>, now: real)
    requires Sound(s) && Commit(s, batch, now).Done?
    ensures var after := Commit(s, batch, now).state;
            && SameClaims(s, after) && after.staged <= s.staged - Ids(batch)
            && after.namespaces.Keys <= s.namespaces.Keys
            && (forall p :: p in after.top ==>
                  (p in s.top && after.top[p] == s.top[p])
                    || (after.top[p] in Ids(batch) && after.top[p] in s.regs && s.regs[after.top[p]].top
                          && s.regs[after.top[p]].key.path == p))
            && (forall x :: x in Ids(batch) ==>
                  x in s.regs && !Conflict(s, s.regs[x].key, s.regs[x].top, s.regs[x].owner, s.regs[x].supplants,
                    Ids(batch), now))
  {
    CommitIsAtomic(s, batch, now);
    TakenFirst(s, batch, now);
    hide Commit, Conflict, Follows, Sound, Disjoint;
    BatchIsThere(s, batch);
    BatchShape(s, batch, now);
    forall x | x in Ids(batch)
      ensures !Conflict(s, s.regs[x].key, s.regs[x].top, s.regs[x].owner, s.regs[x].supplants, Ids(batch), now) {
      var i :| 0 <= i < |batch| && batch[i] == x;
      assert StagedHere(s, batch[i]);
    }
  }

  lemma BatchShape(s: State, batch: seq<Id>, now: real)
    requires Ids(batch) <= s.regs.Keys
    ensures var t := TakeNamespaces(s, batch, now).state;
            var after := RemoveAll(InstallAll(t, batch), Displacing(t, batch));
            && SameClaims(s, after) && after.staged <= s.staged - Ids(batch)
            && after.namespaces.Keys <= s.namespaces.Keys
            && (forall p :: p in after.top ==>
                  (p in s.top && after.top[p] == s.top[p])
                    || (after.top[p] in Ids(batch) && after.top[p] in s.regs && s.regs[after.top[p]].top
                          && s.regs[after.top[p]].key.path == p))
  {
    assert forall i :: 0 <= i < |batch| ==> batch[i] in Ids(batch);
    TakingTouchesOwners(s, batch, now);
    var t := TakeNamespaces(s, batch, now).state;
    var mid := InstallAll(t, batch);
    hide TakeNamespaces, InstallAll, RemoveAll, Displacing, SameClaim;
    InstallAllShape(t, batch);
    RemoveAllShrinks(mid, Displacing(t, batch));
    ClaimsOn(t, mid, RemoveAll(mid, Displacing(t, batch)));
  }

  lemma BatchIsThere(s: State, batch: seq<Id>)
    requires forall i :: 0 <= i < |batch| ==> StagedHere(s, batch[i])
    ensures Ids(batch) <= s.regs.Keys
  {
    forall x | x in Ids(batch) ensures x in s.regs {
      var i :| 0 <= i < |batch| && batch[i] == x;
      assert StagedHere(s, batch[i]);
    }
  }

  lemma ClaimsOn(a: State, b: State, c: State)
    requires SameClaims(a, b) && SameClaims(b, c)
    ensures SameClaims(a, c)
  {
    forall x: Id | x in a.regs ensures x in c.regs && SameClaim(a.regs[x], c.regs[x]) {
      assert x in b.regs && SameClaim(a.regs[x], b.regs[x]);
    }
  }

  lemma TakenFirst(s: State, batch: seq<Id>, now: real)
    requires Commit(s, batch, now).Done?
    ensures var t := TakeNamespaces(s, batch, now).state;
            Commit(s, batch, now).state == RemoveAll(InstallAll(t, batch), Displacing(t, batch))
  {
    hide Conflict, TakeNamespaces, InstallAll, RemoveAll, Displacing, Disjoint;
  }

  lemma CommitStays(s: State, batch: seq<Id>, now: real)
    requires Sound(s) && Unambiguous(s) && Commit(s, batch, now).Done?
    ensures Unambiguous(Commit(s, batch, now).state)
  {
    var after := Commit(s, batch, now).state;
    CommitShape(s, batch, now);
    StagedAreThere(s);
    hide Sound, Conflict, Commit;
    forall p | p in after.top && p in after.namespaces
      ensures exists x: Id :: x in after.regs && after.regs[x].key.ns == p && after.top[p] in after.regs[x].supplants {
      if !(p in s.top && after.top[p] == s.top[p]) {
        var r := s.regs[after.top[p]];
        ClaimIsClear(s, r.key, r.top, r.owner, r.supplants, Ids(batch), now);
        assert false;
      }
      var x: Id :| x in s.regs && s.regs[x].key.ns == p && s.top[p] in s.regs[x].supplants;
      assert SameClaim(s.regs[x], after.regs[x]);
    }
    DraftsStayApart(s, after);
    forall x | x in after.staged && x in after.regs && after.regs[x].key.ns in after.top
      ensures OneSupplants(after, x, after.top[after.regs[x].key.ns]) {
      DraftBelowNewTop(s, batch, now, after, x);
    }
  }

  lemma DraftBelowNewTop(s: State, batch: seq<Id>, now: real, after: State, x: Id)
    requires DraftsBelowTops(s) && SameClaims(s, after) && s.staged <= s.regs.Keys && x in s.staged - Ids(batch)
    requires x in after.regs && after.regs[x].key.ns in after.top
    requires var p := after.regs[x].key.ns;
             && after.top[p] in s.regs
             && (|| (p in s.top && after.top[p] == s.top[p])
                 || (after.top[p] in Ids(batch) && s.regs[after.top[p]].top && s.regs[after.top[p]].key.path == p
                       && var r := s.regs[after.top[p]];
                          !Conflict(s, r.key, r.top, r.owner, r.supplants, Ids(batch), now)))
    ensures OneSupplants(after, x, after.top[after.regs[x].key.ns])
  {
    var t := after.top[after.regs[x].key.ns];
    assert SameClaim(s.regs[x], after.regs[x]) && SameClaim(s.regs[t], after.regs[t]);
    if t in Ids(batch) && s.regs[t].top && s.regs[t].key.path == s.regs[x].key.ns
      && !Conflict(s, s.regs[t].key, true, s.regs[t].owner, s.regs[t].supplants, Ids(batch), now) {
      ClaimIsClear(s, s.regs[t].key, true, s.regs[t].owner, s.regs[t].supplants, Ids(batch), now);
    } else {
      assert OneSupplants(s, x, t);
    }
    hide Conflict;
  }

  // ----- every run -----

  lemma NextStaysUnambiguous(s: State, e: Event)
    requires Sound(s) && Possible(s, e) && Unambiguous(s)
    ensures Unambiguous(Next(s, e))
  {
    StagedAreThere(s);
    hide Sound, Unambiguous, Reserve, Commit, Remove, Wrote, Expire, CloseNamespace, Activated, Reattached, HoldOne,
      BeginClose, HoldNamespace, Shrinks;
    match e {
      case Reserving(a, now) =>
        if Reserve(s, a, now).Raised? {
          assert Reserve(s, a, now).state == s by { RaisedIsNothing(s, a, now); }
        } else if a.staged {
          StagedReserveStays(s, a, now);
        } else {
          DirectReserveStays(s, a, now);
        }
      case Committing(batch, now) =>
        if Commit(s, batch, now).Done? {
          CommitStays(s, batch, now);
        } else {
          CommitIsAtomic(s, batch, now);
          SameTablesShrink(s, Commit(s, batch, now).state);
          ShrinkingStays(s, Next(s, e));
        }
      case Unregistering(id) =>
        RemoveShrinks(s, id);
        ShrinkingStays(s, Next(s, e));
      case Delivering(id, value, expected) =>
        if Deliver(s, id, value, expected).Installed? {
          WroteShrinks(s, id, value);
          ShrinkingStays(s, Next(s, e));
        }
      case Putting(id, c, expected) =>
        if Put(s, id, c, expected).Installed? {
          WroteShrinks(s, id, Some(c));
          ShrinkingStays(s, Next(s, e));
        }
      case Expiring(ns, now, order) =>
        ExpireShrinks(s, ns, now, order);
        ShrinkingStays(s, Next(s, e));
      case Closing(ns, owner, order) =>
        CloseShrinks(s, ns, owner, order);
        ShrinkingStays(s, Next(s, e));
      case _ =>
        QuietShrinks(s, e);
        ShrinkingStays(s, Next(s, e));
    }
  }

  lemma RaisedIsNothing(s: State, a: Ask, now: real)
    requires Reserve(s, a, now).Raised?
    ensures Reserve(s, a, now).state == s
  {
    hide Conflict, Published;
  }

  lemma SameTablesShrink(s: State, after: State)
    requires SameTables(s, after)
    ensures Shrinks(s, after)
  {
  }

  lemma {:induction false} PlayedStaysUnambiguous(s: State, events: seq<Event>)
    requires Sound(s) && Plays(s, events) && Unambiguous(s)
    ensures Unambiguous(Played(s, events))
    decreases |events|
  {
    hide Sound, Unambiguous, Next, Possible;
    if events != [] {
      NextIsSound(s, events[0]);
      NextStaysUnambiguous(s, events[0]);
      PlayedStaysUnambiguous(Next(s, events[0]), events[1..]);
    }
  }

  /** Over every run no top-level share has the name of a namespace, no reservation in the making claims
      what another does, nor a URL below a top-level share; but for a claim that supplants the other. */
  lemma NamesStayUnambiguous(events: seq<Event>)
    requires Plays(EMPTY, events)
    ensures Unambiguous(Played(EMPTY, events))
  {
    EmptyIsSound();
    PlayedStaysUnambiguous(EMPTY, events);
  }

  // ----- whose a namespace is -----

  /** Another owner may come in: the owner has gone, and the hold on its names is not over. */
  predicate Vacant(n: Namespace, now: real) { !n.ownerActive && n.holdUntil.Some? && now < n.holdUntil.value }

  /** A URL is reserved in a namespace that is not there yet, that is the owner's, or that is vacant. */
  lemma ReservesByRight(s: State, a: Ask, now: real)
    requires Reserve(s, a, now).Done? && a.key.ns in s.namespaces
    ensures s.namespaces[a.key.ns].owner == a.owner || Vacant(s.namespaces[a.key.ns], now)
  {
    hide Blocks, Clashes, Published;
  }

  predicate Taken(before: Namespace, after: Namespace, now: real) {
    && Vacant(before, now) && after.owner != before.owner && after.ownerActive && !after.closing
    && after.holdUntil.None?
  }

  lemma {:induction false} TakingByRight(s: State, batch: seq<Id>, now: real, ns: Name)
    requires forall i :: 0 <= i < |batch| ==> batch[i] in s.regs
    ensures ns in s.namespaces ==>
              var t := TakeNamespaces(s, batch, now).state;
              ns in t.namespaces
                && (t.namespaces[ns] == s.namespaces[ns]
                    || (Taken(s.namespaces[ns], t.namespaces[ns], now)
                        && exists i ::
                             0 <= i < |batch| && s.regs[batch[i]].key.ns == ns
                             && s.regs[batch[i]].owner == t.namespaces[ns].owner))
    decreases |batch|
  {
    if batch != [] && s.regs[batch[0]].key.ns in s.namespaces && ns in s.namespaces {
      var mid := TakenOver(s, s.regs[batch[0]].key.ns, s.regs[batch[0]].owner, now);
      var rest, t := batch[1..], TakeNamespaces(s, batch, now).state;
      assert mid.regs == s.regs && mid.namespaces.Keys == s.namespaces.Keys;
      TakingByRight(mid, rest, now, ns);
      assert t == TakeNamespaces(mid, rest, now).state;
      hide TakeNamespaces;
      if t.namespaces[ns] != mid.namespaces[ns] {
        var i :| 0 <= i < |rest| && mid.regs[rest[i]].key.ns == ns && mid.regs[rest[i]].owner == t.namespaces[ns].owner;
        assert batch[i + 1] == rest[i];
      } else if mid.namespaces[ns] != s.namespaces[ns] {
        assert s.regs[batch[0]].key.ns == ns && s.regs[batch[0]].owner == t.namespaces[ns].owner;
      }
    }
  }

  /** A commit hands a namespace over only to the owner of one of its reservations in it, and only a
      vacant one; whether it then succeeds or finds another namespace gone. */
  lemma CommitTakesByRight(s: State, batch: seq<Id>, now: real, ns: Name)
    requires Sound(s) && ns in s.namespaces && ns in Commit(s, batch, now).state.namespaces
    requires var after := Commit(s, batch, now).state;
             after.namespaces[ns].owner != s.namespaces[ns].owner
    ensures Vacant(s.namespaces[ns], now)
    ensures exists i ::
              && 0 <= i < |batch| && batch[i] in s.regs && s.regs[batch[i]].key.ns == ns
              && s.regs[batch[i]].owner == Commit(s, batch, now).state.namespaces[ns].owner
  {
    NoProblem(s, batch, Ids(batch), now);
    assert Ids(batch) == set i | i in batch;
    var after := Commit(s, batch, now).state;
    var t := TakeNamespaces(s, batch, now).state;
    if FirstProblem(s, batch, Ids(batch), now).None? && Disjoint(s, batch) {
      assert forall i :: 0 <= i < |batch| ==> StagedHere(s, batch[i]);
      TakingByRight(s, batch, now, ns);
      OwnersAfter(s, batch, now, ns);
    }
    hide Conflict, TakeNamespaces, InstallAll, RemoveAll, Displacing, Disjoint, FirstProblem, Sound;
  }

  lemma OwnersAfter(s: State, batch: seq<Id>, now: real, ns: Name)
    requires FirstProblem(s, batch, Ids(batch), now).None? && Disjoint(s, batch)
    requires forall i :: 0 <= i < |batch| ==> batch[i] in s.regs
    requires ns in s.namespaces && ns in Commit(s, batch, now).state.namespaces
    ensures var t := TakeNamespaces(s, batch, now).state;
            ns in t.namespaces && Commit(s, batch, now).state.namespaces[ns].owner == t.namespaces[ns].owner
  {
    TakingTouchesOwners(s, batch, now);
    var t := TakeNamespaces(s, batch, now).state;
    assert Ids(batch) == set i | i in batch;
    assert Commit(s, batch, now).state == (if TakeNamespaces(s, batch, now).Raised? then t
      else RemoveAll(InstallAll(t, batch), Displacing(t, batch))) by {
      hide Conflict, TakeNamespaces, InstallAll, RemoveAll, Displacing, Disjoint, FirstProblem;
    }
    hide Commit, TakeNamespaces, FirstProblem, Disjoint;
    InstallOwners(t, batch);
    RemoveOwners(InstallAll(t, batch), Displacing(t, batch));
    hide InstallAll, RemoveAll, Displacing;
  }

  ghost predicate SameOwners(s: State, after: State) {
    forall ns :: ns in s.namespaces && ns in after.namespaces ==> after.namespaces[ns].owner == s.namespaces[ns].owner
  }

  lemma {:induction false} InstallOwners(s: State, batch: seq<Id>)
    requires forall i :: 0 <= i < |batch| ==> batch[i] in s.regs
    ensures SameOwners(s, InstallAll(s, batch)) && InstallAll(s, batch).namespaces.Keys == s.namespaces.Keys
    decreases |batch|
  {
    if batch != [] {
      InstallRows(s, batch[0]);
      var after := Install(s, batch[0]);
      assert SameOwners(s, after) by { hide Ready, Noted, Listed; ListedNamespaces(s, batch[0]); }
      hide Install;
      InstallOwners(after, batch[1..]);
    }
  }

  lemma ListedNamespaces(s: State, id: Id)
    requires id in s.regs
    ensures Listed(s, id, Ready(s, id)).namespaces == s.namespaces
  {
    hide Ready, Noted;
  }

  lemma {:induction false} RemoveOwners(s: State, ids: seq<Id>)
    ensures SameOwners(s, RemoveAll(s, ids)) && RemoveAll(s, ids).namespaces.Keys <= s.namespaces.Keys
    decreases |ids|
  {
    if ids != [] {
      var after := Remove(s, ids[0]);
      assert SameOwners(s, after) && after.namespaces.Keys <= s.namespaces.Keys by { hide Floor, Deserted; }
      hide Remove;
      RemoveOwners(after, ids[1..]);
    }
  }

  /** A commit takes a top-level route only from a share of the same namespace, or from one that it
      supplants. */
  lemma TopsStayInTheirNamespace(s: State, batch: seq<Id>, now: real, i: nat)
    requires Sound(s) && Commit(s, batch, now).Done? && i < |batch|
    ensures batch[i] in s.regs
    ensures var r := s.regs[batch[i]];
            r.top && r.key.path in s.top && s.top[r.key.path] in s.regs ==>
              s.top[r.key.path] in r.supplants || s.regs[s.top[r.key.path]].key.ns == r.key.ns
  {
    CommitShape(s, batch, now);
    hide Conflict, Commit, Sound;
    assert batch[i] in Ids(batch);
    var r := s.regs[batch[i]];
    ClaimIsClear(s, r.key, r.top, r.owner, r.supplants, Ids(batch), now);
  }

  // ----- namespaces claimed for reservations only -----

  predicate OnlyClaimed(s: State, ns: Name) { ns in s.namespaces && s.namespaces[ns].stagedClaim }

  /** A namespace that a reservation in the making claims is claimed for it only; one that is published at
      once owns its own. */
  lemma ClaimsAre(s: State, a: Ask, now: real)
    requires Reserve(s, a, now).Done? && a.key.ns !in s.namespaces
    ensures a.staged ==> OnlyClaimed(Reserve(s, a, now).state, a.key.ns)
    ensures Claimed(s, a).namespaces[a.key.ns] == Namespace(a.owner, a.staged, true, false, None)
  {
    hide Conflict, Published, Floor;
  }

  /** A withdrawn reservation takes along a namespace that was claimed for reservations only, exactly if no
      share and no other reservation is in it. */
  lemma WithdrawnWithItsNamespace(s: State, id: Id)
    requires Sound(s) && id in s.staged && id in s.regs && s.regs[id].key.ns in s.namespaces
    ensures var ns := s.regs[id].key.ns;
            ns !in Remove(s, id).namespaces <==>
              && OnlyClaimed(s, ns) && (forall k :: k in s.keyed ==> k.ns != ns)
              && (forall x :: x in s.staged && x != id && x in s.regs ==> s.regs[x].key.ns != ns)
  {
    SoundParts(s);
    assert !s.regs[id].closed && s.regs[id].staged;
    var u, ns := Unlisted(s, id), s.regs[id].key.ns;
    assert forall k :: k in s.keyed ==> s.keyed[k] != id;
    assert u.keyed == s.keyed && u.staged == s.staged - {id} && u.namespaces == s.namespaces;
    assert forall x: Id :: x in s.regs && x != id ==> u.regs[x] == s.regs[x];
    hide Sound, Linked, Marked, Drafts, Unlisted;
  }

  lemma InstallSettles(s: State, id: Id, ns: Name)
    requires id in s.regs
    ensures ns == s.regs[id].key.ns || !OnlyClaimed(s, ns) ==> !OnlyClaimed(Install(s, id), ns)
  {
    hide Ready, Noted;
  }

  lemma {:induction false} InstallAllSettles(s: State, batch: seq<Id>, ns: Name)
    requires Ids(batch) <= s.regs.Keys
    requires !OnlyClaimed(s, ns) || exists i :: 0 <= i < |batch| && s.regs[batch[i]].key.ns == ns
    ensures !OnlyClaimed(InstallAll(s, batch), ns)
    decreases |batch|
  {
    if batch != [] {
      var after, rest := Install(s, batch[0]), batch[1..];
      assert batch[0] in Ids(batch) && Ids(rest) <= Ids(batch);
      InstallSettles(s, batch[0], ns);
      InstallShape(s, batch[0]);
      hide Install, OnlyClaimed;
      if OnlyClaimed(after, ns) {
        var i :| 0 <= i < |batch| && s.regs[batch[i]].key.ns == ns;
        assert i > 0 && rest[i - 1] == batch[i] && batch[i] in Ids(batch);
        assert SameClaim(s.regs[batch[i]], after.regs[batch[i]]);
      }
      InstallAllSettles(after, rest, ns);
    }
  }

  lemma {:induction false} RemoveAllSettles(s: State, ids: seq<Id>, ns: Name)
    requires !OnlyClaimed(s, ns)
    ensures !OnlyClaimed(RemoveAll(s, ids), ns)
    decreases |ids|
  {
    if ids != [] {
      assert !OnlyClaimed(Remove(s, ids[0]), ns) by { hide Floor, Deserted; }
      hide Remove, OnlyClaimed;
      RemoveAllSettles(Remove(s, ids[0]), ids[1..], ns);
    }
  }

  /** After a commit no namespace of the batch is claimed for reservations only. */
  lemma CommitSettlesClaims(s: State, batch: seq<Id>, now: real, i: nat)
    requires Sound(s) && Commit(s, batch, now).Done? && i < |batch|
    ensures batch[i] in s.regs && !OnlyClaimed(Commit(s, batch, now).state, s.regs[batch[i]].key.ns)
  {
    CommitShape(s, batch, now);
    TakenFirst(s, batch, now);
    hide Conflict, Commit, Sound;
    assert batch[i] in Ids(batch);
    assert forall j :: 0 <= j < |batch| ==> batch[j] in Ids(batch);
    TakingTouchesOwners(s, batch, now);
    var t, ns := TakeNamespaces(s, batch, now).state, s.regs[batch[i]].key.ns;
    hide TakeNamespaces, InstallAll, RemoveAll, Displacing, OnlyClaimed;
    InstallAllSettles(t, batch, ns);
    RemoveAllSettles(InstallAll(t, batch), Displacing(t, batch), ns);
  }
}
