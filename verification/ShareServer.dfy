/** The share server as the object it is: its tables change in place, one locked section at a time. */
module ShareServers {
  import opened Wrappers
  import opened ShareRegistry
  import opened ShareTables
  import opened ShareKeys
  import opened ShareSteps
  import opened ShareRuns

  datatype Reply = Accepted | Stale(checksum: Option<Checksum>, marker: nat) | Missing

  function ReplyTo(a: Answer): Reply {
    match a case Installed(_) => Accepted case Mismatch(c, m) => Stale(c, m) case Gone => Missing
  }

  class ShareServer {
    var regs: map<Id, Registration>
    var namespaces: map<Name, Namespace>
    var keyed: map<Key, Id>
    var top: map<Name, Id>
    var nested: map<Key, Id>
    var staged: set<Id>
    var floors: map<Route, nat>
    var prints: nat
    var next: Id
    ghost var seen: map<Mark, Checksum>

    ghost function View(): State reads this {
      State(regs, namespaces, keyed, top, nested, staged, floors, prints, next, seen)
    }

    constructor ()
      ensures View() == EMPTY && Sound(View())
    {
      regs, namespaces, keyed, top, nested := map[], map[], map[], map[], map[];
      staged, floors, prints, next, seen := {}, map[], 0, 0, map[];
      new;
      EmptyIsSound();
    }

    method MayTake(ns: Name, owner: Owner, now: real) returns (over: bool, rejoin: bool)
      ensures over == CanTakeOver(View(), ns, owner, now) && rejoin == MayRejoin(View(), ns, owner, now)
    {
      if ns !in namespaces {
        return false, false;
      }
      var n := namespaces[ns];
      over := n.owner != owner && !n.ownerActive && n.holdUntil.Some? && now < n.holdUntil.value;
      rejoin := over || n.owner == owner;
    }

    /** Whether a registration may not be reserved under this key, as things stand. */
    method CheckConflicts(key: Key, atTop: bool, owner: Owner, supplants: set<Id>, ignored: set<Id>, now: real)
        returns (conflict: bool)
      requires Sound(View())
      ensures conflict == Conflict(View(), key, atTop, owner, supplants, ignored, now)
    {
      SoundParts(View());
      LinkedRoutes(View());
      NamedHaveRows(View(), key);
      var over, rejoin := MayTake(key.ns, owner, now);
      if key.ns in namespaces && !rejoin {
        return true;
      }
      if key.ns in top && top[key.ns] !in supplants {
        return true;
      }
      if key.ns in namespaces && key in keyed && keyed[key] !in supplants && !(regs[keyed[key]].held && rejoin) {
        return true;
      }
      if atTop {
        if key.path in top && top[key.path] !in supplants
           && !(regs[top[key.path]].held && regs[top[key.path]].key.ns == key.ns && rejoin) {
          return true;
        }
        if key.path == key.ns || key.path in namespaces {
          return true;
        }
      } else if key in nested && nested[key] !in supplants && !(regs[nested[key]].held && rejoin) {
        return true;
      }
      conflict := exists other ::
        other in staged && other in regs && other !in ignored && other !in supplants
        && Clashes(regs[other], key, atTop);
    }

    method FindHeld(key: Key, atTop: bool) returns (held: Option<Id>)
      ensures held == HeldFor(View(), key, atTop)
    {
      var route := RouteOf(key, atTop);
      if key.ns in namespaces && key in keyed {
        var id := keyed[key];
        if id in regs && regs[id].held && RouteOf(regs[id].key, regs[id].top) == route {
          return Some(id);
        }
      }
      var current := Current(key, atTop);
      if current.Some? && current.value in regs && regs[current.value].held
         && RouteOf(regs[current.value].key, regs[current.value].top) == route {
        return current;
      }
      return None;
    }

    method Current(key: Key, atTop: bool) returns (id: Option<Id>)
      ensures id == Answering(View(), RouteOf(key, atTop))
    {
      if atTop {
        id := if key.path in top then Some(top[key.path]) else None;
      } else {
        id := if key in nested then Some(nested[key]) else None;
      }
    }

    method Unlist(id: Id)
      requires id in regs
      modifies this
      ensures View() == Unlisted(old(View()), id)
    {
      var r := regs[id];
      var route := RouteOf(r.key, r.top);
      regs := regs[id := r.(closed := true, active := false)];
      staged := staged - {id};
      if r.top {
        top := Without(top, r.key.path, id);
      } else {
        nested := Without(nested, r.key, id);
      }
      keyed := Without(keyed, r.key, id);
      floors := floors[route := Max(if route in floors then floors[route] else 0, r.marker)];
    }

    /** Takes a registration out of every table; its marker goes on as the route's floor. */
    method RemoveRegistration(id: Id)
      modifies this
      ensures View() == Remove(old(View()), id)
    {
      if id !in regs || regs[id].closed {
        return;
      }
      var r := regs[id];
      Unlist(id);
      if r.staged && r.key.ns in namespaces && namespaces[r.key.ns].stagedClaim {
        var deserted :=
          && (forall k :: k in keyed ==> k.ns != r.key.ns)
          && (forall i :: i in staged && i in regs ==> regs[i].key.ns != r.key.ns);
        if deserted {
          namespaces := namespaces - {r.key.ns};
        }
      }
    }

    method RemoveEach(ids: seq<Id>)
      modifies this
      ensures View() == RemoveAll(old(View()), ids)
    {
      ghost var goal := RemoveAll(View(), ids);
      for i := 0 to |ids|
        invariant RemoveAll(View(), ids[i..]) == goal
      {
        assert ids[i..][0] == ids[i] && ids[i..][1..] == ids[i + 1..];
        RemoveRegistration(ids[i]);
      }
      assert ids[|ids|..] == [];
    }

    method TakeOver(ns: Name, owner: Owner, now: real)
      modifies this`namespaces
      ensures View() == TakenOver(old(View()), ns, owner, now)
    {
      var over, rejoin := MayTake(ns, owner, now);
      if over {
        namespaces := namespaces[ns :=
          namespaces[ns].(owner := owner, ownerActive := true, closing := false, holdUntil := None)];
      }
    }

    method List(id: Id, reg: Registration)
      modifies this
      ensures View() == Listed(old(View()), id, reg)
    {
      regs := regs[id := reg];
      if reg.top {
        top := top[reg.key.path := id];
      } else {
        nested := nested[reg.key := id];
      }
      keyed := keyed[reg.key := id];
      seen := Noted(seen, RouteOf(reg.key, reg.top), reg.marker, reg.checksum);
    }

    /** Reserves a URL, for a later commit or at once. */
    method ReserveUrl(a: Ask, now: real) returns (r: Result<Id, RegistryError>)
      requires Sound(View())
      modifies this
      ensures View() == Reserve(old(View()), a, now).state && (a.staged || a.supplants == {} ==> Sound(View()))
      ensures r.Ok? <==> Reserve(old(View()), a, now).Done?
      ensures r.Ok? ==> r.value == old(next)
      ensures r.Err? ==> r.error == InUse
    {
      hide Sound, Conflict, Orphans, Published, Reserve, Follows, Claimed, Drafted, RouteOf;
      if a.staged || a.supplants == {} {
        ReserveIsSound(View(), a, now);
      }
      UnfoldReserve(View(), a, now);
      var conflict := CheckConflicts(a.key, a.top, a.owner, a.supplants, {}, now);
      if conflict {
        return Err(InUse);
      }
      var reg := MakeDraft(a);
      var id := next;
      Claim(a);
      if a.staged {
        Stage(id, reg);
      } else {
        PublishNow(id, reg, now);
      }
      return Ok(id);
    }

    method MakeDraft(a: Ask) returns (reg: Registration)
      ensures reg == Drafted(View(), a)
    {
      var route := RouteOf(a.key, a.top);
      reg := Registration(a.key, a.top, a.owner, a.staged, a.supplants, false, false, false, None, None,
                          None, if route in floors then floors[route] else 0, 0, None);
    }

    method Claim(a: Ask)
      modifies this`namespaces, this`next
      ensures View() == Claimed(old(View()), a).(next := old(next) + 1)
    {
      if a.key.ns !in namespaces {
        namespaces := namespaces[a.key.ns := Namespace(a.owner, a.staged, true, false, None)];
      }
      next := next + 1;
    }

    method Stage(id: Id, reg: Registration)
      modifies this`regs, this`staged
      ensures View() == old(View()).(regs := old(regs)[id := reg], staged := old(staged) + {id})
    {
      regs := regs[id := reg];
      staged := staged + {id};
    }

    method PublishNow(id: Id, reg: Registration, now: real)
      modifies this
      ensures View() == Published(old(View()), id, reg, now)
    {
      var held := FindHeld(reg.key, reg.top);
      var adopted := reg;
      if held.Some? {
        if held.value in regs {
          adopted := Adopted(reg, regs[held.value], held.value);
        }
        RemoveRegistration(held.value);
      }
      hide HeldFor, Remove;
      TakeOver(reg.key.ns, reg.owner, now);
      List(id, adopted);
    }

    /** A client's write: accepted, refused for naming another marker, or too late. */
    method PutValue(id: Id, c: Checksum, expected: Option<nat>) returns (r: Reply)
      requires Sound(View())
      modifies this
      ensures View() == After(old(View()), Put(old(View()), id, c, expected)) && Sound(View())
      ensures r == ReplyTo(Put(old(View()), id, c, expected))
    {
      NextIsSound(View(), Putting(id, c, expected));
      hide Sound;
      if id !in regs || regs[id].closed || !regs[id].active {
        return Missing;
      }
      if expected.Some? && expected.value != regs[id].marker {
        return Stale(regs[id].checksum, regs[id].marker);
      }
      Write(id, Some(c));
      return Accepted;
    }

    /** A delivery from the Context. */
    method DeliverValue(id: Id, c: Option<Checksum>, expected: Option<nat>) returns (r: Reply)
      requires Sound(View())
      modifies this
      ensures View() == After(old(View()), Deliver(old(View()), id, c, expected)) && Sound(View())
      ensures r == ReplyTo(Deliver(old(View()), id, c, expected))
    {
      NextIsSound(View(), Delivering(id, c, expected));
      hide Sound;
      if id !in regs || regs[id].closed || !regs[id].active {
        return Missing;
      }
      if expected != regs[id].fingerprint {
        return Stale(regs[id].checksum, regs[id].marker);
      }
      Write(id, c);
      return Accepted;
    }

    // ----- committing -----

    method CheckBatch(batch: seq<Id>, now: real) returns (problem: Option<RegistryError>)
      requires Sound(View())
      ensures problem == FirstProblem(View(), batch, Ids(batch), now)
    {
      var all := set i | i in batch;
      for i := 0 to |batch|
        invariant FirstProblem(View(), batch, all, now) == FirstProblem(View(), batch[i..], all, now)
      {
        var id := batch[i];
        assert batch[i..][0] == id && batch[i..][1..] == batch[i + 1..];
        if id !in regs || regs[id].closed || !regs[id].staged || id !in staged {
          return Some(NotStaged);
        }
        var r := regs[id];
        var conflict := CheckConflicts(r.key, r.top, r.owner, r.supplants, all, now);
        if conflict {
          return Some(InUse);
        }
      }
      return None;
    }

    method CheckApart(batch: seq<Id>) returns (apart: bool)
      requires forall i :: 0 <= i < |batch| ==> batch[i] in regs
      ensures apart == Disjoint(View(), batch)
    {
      for i := 0 to |batch|
        invariant forall k, j :: 0 <= k < i && k < j < |batch| ==> Clear(View(), batch[k], batch[j])
      {
        for j := i + 1 to |batch|
          invariant forall k :: i < k < j ==> Clear(View(), batch[i], batch[k])
        {
          if Collide(regs[batch[i]], regs[batch[j]]) {
            assert !Clear(View(), batch[i], batch[j]);
            return false;
          }
        }
      }
      return true;
    }

    method TakeEach(batch: seq<Id>, now: real) returns (ok: bool)
      requires forall i :: 0 <= i < |batch| ==> batch[i] in regs
      modifies this`namespaces
      ensures View() == TakeNamespaces(old(View()), batch, now).state
      ensures ok == TakeNamespaces(old(View()), batch, now).Done?
    {
      ghost var goal := TakeNamespaces(View(), batch, now);
      for i := 0 to |batch|
        invariant TakeNamespaces(View(), batch[i..], now) == goal
      {
        assert batch[i..][0] == batch[i] && batch[i..][1..] == batch[i + 1..];
        var r := regs[batch[i]];
        if r.key.ns !in namespaces {
          return false;
        }
        TakeOver(r.key.ns, r.owner, now);
      }
      assert batch[|batch|..] == [];
      return true;
    }

    /** Publishes one reservation, and says what it displaces. */
    method InstallOne(id: Id) returns (gone: seq<Id>)
      requires id in regs
      modifies this
      ensures View() == Install(old(View()), id)
      ensures gone == HeldIds(old(View()), old(regs[id]).key, old(regs[id]).top)
        + Displaced(old(View()), old(regs[id]).key, old(regs[id]).top)
    {
      var reg := regs[id];
      ghost var s := View();
      var sameKey := if reg.key in keyed then [keyed[reg.key]] else [];
      var current := Current(reg.key, reg.top);
      var held := FindHeld(reg.key, reg.top);
      var olds := sameKey + (if current.Some? then [current.value] else []);
      gone := (if held.Some? then [held.value] else []) + olds;
      if held.Some? && held.value in regs {
        reg := Adopted(reg, regs[held.value], held.value);
      }
      var marker := Raise(reg.marker, olds);
      var route := RouteOf(reg.key, reg.top);
      reg := reg.(marker := Max(marker, if route in floors then floors[route] else 0), staged := false);
      assert reg == Ready(s, id);
      hide Ready, HeldFor;
      List(id, reg);
      if reg.key.ns in namespaces {
        namespaces := namespaces[reg.key.ns := namespaces[reg.key.ns].(stagedClaim := false)];
      }
      staged := staged - {id};
    }

    method Raise(marker: nat, ids: seq<Id>) returns (m: nat)
      ensures m == RaisedTo(View(), marker, ids)
    {
      m := marker;
      for i := 0 to |ids|
        invariant RaisedTo(View(), marker, ids) == RaisedTo(View(), m, ids[i..])
      {
        assert ids[i..][0] == ids[i] && ids[i..][1..] == ids[i + 1..];
        m := Max(m, if ids[i] in regs then regs[ids[i]].marker else 0);
      }
      assert ids[|ids|..] == [];
    }

    /** Publishes the batch one by one; what it displaces stays open until all are in place. */
    method InstallEach(batch: seq<Id>) returns (replaced: seq<Id>)
      requires forall i :: 0 <= i < |batch| ==> batch[i] in regs
      modifies this
      ensures View() == InstallAll(old(View()), batch) && replaced == Displacing(old(View()), batch)
    {
      ghost var s := View();
      replaced := [];
      NothingLeft(s);
      hide Install, HeldIds, Displaced, Displacing, InstallAll;
      for i := 0 to |batch|
        invariant regs.Keys == s.regs.Keys
        invariant InstallAll(View(), batch[i..]) == InstallAll(s, batch)
        invariant replaced + Displacing(View(), batch[i..]) == Displacing(s, batch)
      {
        assert batch[i..][0] == batch[i] && batch[i..][1..] == batch[i + 1..];
        ghost var mid := View();
        InstallRows(mid, batch[i]);
        UnfoldDisplacing(mid, batch[i..]);
        var gone := InstallOne(batch[i]);
        assert replaced + (gone + Displacing(View(), batch[i + 1..])) == (replaced + gone)
          + Displacing(View(), batch[i + 1..]);
        replaced := replaced + gone;
      }
      assert batch[|batch|..] == [];
      NothingLeft(View());
      assert replaced + [] == replaced;
    }

    method PublishEach(batch: seq<Id>)
      requires forall i :: 0 <= i < |batch| ==> batch[i] in regs
      modifies this
      ensures View() == RemoveAll(InstallAll(old(View()), batch), Displacing(old(View()), batch))
    {
      hide InstallAll, Displacing, RemoveAll;
      var replaced := InstallEach(batch);
      RemoveEach(replaced);
    }

    method FindProblem(batch: seq<Id>, now: real) returns (problem: Option<RegistryError>)
      requires Sound(View())
      ensures problem == ProblemOf(View(), batch, now)
    {
      NoProblem(View(), batch, Ids(batch), now);
      hide Sound, Conflict, FirstProblem, Disjoint;
      problem := CheckBatch(batch, now);
      if problem.None? {
        assert forall i :: 0 <= i < |batch| ==> StagedHere(View(), batch[i]);
        var apart := CheckApart(batch);
        problem := if apart then None else Some(InUse);
      }
    }

    /** Publishes a prepared batch as a whole, or leaves every table as it was. */
    method CommitReservations(batch: seq<Id>, now: real) returns (r: Result<(), RegistryError>)
      requires Sound(View())
      modifies this
      ensures View() == Commit(old(View()), batch, now).state && Sound(View())
      ensures r.Ok? <==> Commit(old(View()), batch, now).Done?
      ensures r.Err? ==> r.error == Commit(old(View()), batch, now).error && SameTables(old(View()), View())
    {
      hide Sound, Conflict, Follows, Commit, TakeNamespaces, InstallAll, RemoveAll, Displacing, ProblemOf, Disjoint,
        IsKeyed, IsRouted, Strays, AllKeyed, Ids, StagedHere, Open;
      ghost var s := View();
      CommitIsSound(s, batch, now);
      CommitIsAtomic(s, batch, now);
      UnfoldCommit(s, batch, now);
      var problem := FindProblem(batch, now);
      if problem.Some? {
        return Err(problem.value);
      }
      var ok := TakeEach(batch, now);
      if !ok {
        return Err(NamespaceGone);
      }
      PublishEach(batch);
      return Ok(());
    }

    // ----- holding and closing -----

    method Hold(id: Id)
      requires Sound(View())
      modifies this`regs
      ensures View() == HoldOne(old(View()), id) && Sound(View())
    {
      NextIsSound(View(), Holding(id));
      hide Sound;
      if id in regs && !regs[id].closed {
        regs := regs[id := regs[id].(active := false, held := true)];
      }
    }

    /** The holds of a namespace that have lapsed end; with nothing left, so does the namespace. */
    method ExpireHolds(ns: Name, now: real, order: seq<Id>)
      requires Sound(View()) && forall id: Id :: id in order <==> id in regs && Lapsed(View(), id, ns, now)
      modifies this
      ensures View() == Expire(old(View()), ns, now, order) && Sound(View())
    {
      ExpireIsSound(View(), ns, now, order);
      hide Sound;
      if ns !in namespaces {
        return;
      }
      RemoveEach(order);
      if ns !in namespaces {
        return;
      }
      var n := namespaces[ns];
      if n.holdUntil.Some? && n.holdUntil.value <= now {
        n := n.(holdUntil := None);
      }
      if !n.ownerActive && n.holdUntil.None? && forall k :: k in keyed ==> k.ns != ns {
        namespaces := namespaces - {ns};
      } else {
        namespaces := namespaces[ns := n];
      }
    }

    method Write(id: Id, c: Option<Checksum>)
      requires id in regs
      modifies this
      ensures View() == Wrote(old(View()), id, c)
    {
      var reg := regs[id];
      var route := RouteOf(reg.key, reg.top);
      prints := prints + 1;
      if reg.checksum != c {
        reg := reg.(checksum := c, marker := reg.marker + 1);
        floors := floors[route := reg.marker];
        seen := Noted(seen, route, reg.marker, c);
      }
      regs := regs[id := reg.(ws := reg.ws + 1, fingerprint := Some(prints))];
    }
  }

  lemma NamedHaveRows(s: State, key: Key)
    requires KeysLinked(s) && RoutesLinked(s)
    ensures key in s.keyed ==> s.keyed[key] in s.regs
    ensures key in s.nested ==> s.nested[key] in s.regs
    ensures key.path in s.top ==> s.top[key.path] in s.regs
  {
    assert key in s.nested ==> Answering(s, Within(key)).Some?;
    assert key.path in s.top ==> Answering(s, AtTop(key.path)).Some?;
  }

  lemma NothingLeft(s: State)
    ensures InstallAll(s, []) == s && Displacing(s, []) == []
  {
  }

  lemma UnfoldReserve(s: State, a: Ask, now: real)
    ensures Conflict(s, a.key, a.top, a.owner, a.supplants, {}, now) ==> Reserve(s, a, now) == Raised(InUse, s)
    ensures !Conflict(s, a.key, a.top, a.owner, a.supplants, {}, now) ==>
              Reserve(s, a, now).Done?
              && var claimed, reg := Claimed(s, a).(next := s.next + 1), Drafted(s, a);
                 Reserve(s, a, now).state ==
                   if a.staged then claimed.(regs := claimed.regs[s.next := reg], staged := claimed.staged + {s.next})
                   else Published(claimed, s.next, reg, now)
  {
    hide Conflict, Published;
  }

  function ProblemOf(s: State, batch: seq<Id>, now: real): Option<RegistryError> {
    var problem := FirstProblem(s, batch, Ids(batch), now);
    if problem.Some? then problem else if Disjoint(s, batch) then None else Some(InUse)
  }

  lemma UnfoldCommit(s: State, batch: seq<Id>, now: real)
    ensures var problem, taken := ProblemOf(s, batch, now), TakeNamespaces(s, batch, now);
            && (problem.Some? ==> Commit(s, batch, now) == Raised(problem.value, s))
            && (problem.None? ==> forall i :: 0 <= i < |batch| ==> batch[i] in s.regs)
            && (problem.None? && taken.Raised? ==> Commit(s, batch, now) == taken && taken.error == NamespaceGone)
            && (problem.None? && taken.Done? ==>
                  Commit(s, batch, now) ==
                    Done(RemoveAll(InstallAll(taken.state, batch), Displacing(taken.state, batch)))
                  && forall i :: 0 <= i < |batch| ==> batch[i] in taken.state.regs)
  {
    NoProblem(s, batch, Ids(batch), now);
    assert Ids(batch) == set i | i in batch;
    hide Conflict, TakeNamespaces, InstallAll, RemoveAll, Displacing, Disjoint, FirstProblem;
    if FirstProblem(s, batch, Ids(batch), now).None? {
      assert forall i :: 0 <= i < |batch| ==> StagedHere(s, batch[i]) ==> batch[i] in s.regs;
      TakingTouchesOwners(s, batch, now);
    }
  }
}
