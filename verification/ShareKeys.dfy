/** The record table of the namespaces: which open registrations it may have lost. */
module ShareKeys {
  import opened ShareRegistry
  import opened ShareTables

  /** The open, published registrations that the record table does not name. */
  ghost function Strays(s: State): set<Id> {
    set id | id in s.regs && Open(s, id) && !IsKeyed(s, id)
  }

  lemma AllButStraysAreKeyed(s: State)
    ensures AllKeyed(s, Strays(s))
  {
  }

  /** Only what the record table reads is the same. */
  lemma SameKeyed(s: State, after: State, strays: set<Id>)
    requires AllKeyed(s, strays) && after.keyed == s.keyed
    requires forall x: Id :: Open(after, x) ==>
      Open(s, x) && x in s.regs && x in after.regs && after.regs[x].key == s.regs[x].key
    ensures AllKeyed(after, strays)
  {
    hide Open;
    forall x: Id | Open(after, x) && x !in strays ensures IsKeyed(after, x) {
      assert IsKeyed(s, x);
    }
  }

  lemma RemoveKeepsKeys(s: State, id: Id, strays: set<Id>)
    requires AllKeyed(s, strays)
    ensures AllKeyed(Remove(s, id), strays - {id})
  {
    RemoveRows(s, id);
    RemoveKeepsEntries(s, id);
    var after := Remove(s, id);
    hide Remove;
    forall x: Id | Open(after, x) && x !in strays - {id} ensures IsKeyed(after, x) {
      assert x == id ==> !Open(after, x);
      assert IsKeyed(s, x);
    }
  }

  lemma RemoveKeepsEntries(s: State, id: Id)
    ensures forall k :: k in s.keyed && s.keyed[k] != id ==>
      k in Remove(s, id).keyed && Remove(s, id).keyed[k] == s.keyed[k]
  {
    hide Deserted;
  }

  lemma {:induction false} RemoveAllKeepsKeys(s: State, ids: seq<Id>, strays: set<Id>)
    requires AllKeyed(s, strays)
    ensures AllKeyed(RemoveAll(s, ids), strays - Ids(ids))
    decreases |ids|
  {
    if ids == [] {
      assert strays - Ids(ids) == strays;
    } else {
      assert strays - {ids[0]} - Ids(ids[1..]) == strays - Ids(ids);
      RemoveKeepsKeys(s, ids[0], strays);
      hide Remove, AllKeyed, Ids;
      RemoveAllKeepsKeys(Remove(s, ids[0]), ids[1..], strays - {ids[0]});
    }
  }

  /** A listing takes the entry of its key from whoever had it. */
  lemma ListKeepsKeys(s: State, id: Id, reg: Registration, strays: set<Id>, gone: set<Id>)
    requires AllKeyed(s, strays) && !reg.closed && !reg.staged
    requires reg.key in s.keyed && Open(s, s.keyed[reg.key]) ==> s.keyed[reg.key] in gone
    ensures AllKeyed(Listed(s, id, reg), strays + gone)
  {
    var after := Listed(s, id, reg);
    ListFacts(s, id, reg);
    hide Listed, Open;
    forall x: Id | Open(after, x) && x !in strays + gone ensures IsKeyed(after, x) {
      if x != id {
        assert Open(s, x) && IsKeyed(s, x);
      }
    }
  }

  lemma InstallKeepsKeys(s: State, id: Id, strays: set<Id>)
    requires AllKeyed(s, strays) && id in s.regs && !s.regs[id].closed
    ensures AllKeyed(Install(s, id), strays + DisplacedSet(s, s.regs[id].key, s.regs[id].top))
  {
    var reg := Ready(s, id);
    var gone := DisplacedSet(s, reg.key, reg.top);
    ReadyShape(s, id);
    DisplacedFacts(s, reg.key, reg.top);
    hide Ready, DisplacedSet, Displaced, Open, AllKeyed;
    ListKeepsKeys(s, id, reg, strays, gone);
    var listed, after := Listed(s, id, reg), Install(s, id);
    assert after.regs == listed.regs && after.keyed == listed.keyed;
    SameOpen(listed, after);
    SameKeyed(listed, after, strays + gone);
  }

  lemma SameOpen(s: State, after: State)
    requires after.regs == s.regs
    ensures forall x: Id :: Open(after, x) <==> Open(s, x)
    ensures forall x: Id :: Open(after, x) ==> x in s.regs
  {
  }

  lemma {:induction false} InstallAllKeepsKeys(s: State, batch: seq<Id>, strays: set<Id>)
    requires AllKeyed(s, strays) && Disjoint(s, batch)
    requires forall i :: 0 <= i < |batch| ==> batch[i] in s.regs && !s.regs[batch[i]].closed
    ensures AllKeyed(InstallAll(s, batch), strays + Ids(Displacing(s, batch)))
    decreases |batch|
  {
    if batch == [] {
      assert strays + Ids(Displacing(s, batch)) == strays;
    } else {
      var id, after, rest := batch[0], Install(s, batch[0]), batch[1..];
      var r := s.regs[id];
      InstallKeepsKeys(s, id, strays);
      InstallRows(s, id);
      UnfoldDisplacing(s, batch);
      hide Install, AllKeyed, Displacing, InstallAll, HeldIds, Displaced, Collide;
      forall i | 0 <= i < |rest| ensures rest[i] in after.regs && !after.regs[rest[i]].closed {
        assert rest[i] == batch[i + 1];
      }
      forall i, j | 0 <= i < j < |rest| ensures Clear(after, rest[i], rest[j]) {
        RestIsClear(s, after, batch, i, j);
      }
      var gone := DisplacedSet(s, r.key, r.top);
      InstallAllKeepsKeys(after, rest, strays + gone);
      IdsInParts(HeldIds(s, r.key, r.top), Displaced(s, r.key, r.top), Displacing(after, rest));
      MoreStrays(InstallAll(s, batch), strays + gone + Ids(Displacing(after, rest)),
        strays + Ids(Displacing(s, batch)));
    }
  }

  lemma RestIsClear(s: State, after: State, batch: seq<Id>, i: nat, j: nat)
    requires Disjoint(s, batch) && i < j < |batch| - 1 && batch[0] in s.regs && after == Install(s, batch[0])
    ensures Clear(after, batch[i + 1], batch[j + 1])
  {
    InstallRows(s, batch[0]);
    assert Clear(s, batch[i + 1], batch[j + 1]);
    hide Install;
  }

  lemma IdsInParts(a: seq<Id>, b: seq<Id>, c: seq<Id>)
    ensures (set x | x in b) + Ids(c) <= Ids(a + b + c)
  {
  }

  lemma MoreStrays(s: State, strays: set<Id>, more: set<Id>)
    requires AllKeyed(s, strays) && strays <= more
    ensures AllKeyed(s, more)
  {
  }

  lemma BatchKeepsKeys(s: State, batch: seq<Id>, strays: set<Id>)
    requires AllKeyed(s, strays) && Disjoint(s, batch)
    requires forall i :: 0 <= i < |batch| ==> batch[i] in s.regs && !s.regs[batch[i]].closed
    ensures AllKeyed(RemoveAll(InstallAll(s, batch), Displacing(s, batch)), strays)
  {
    InstallAllKeepsKeys(s, batch, strays);
    hide AllKeyed, Displacing, InstallAll, RemoveAll, Disjoint;
    var gone := Displacing(s, batch);
    RemoveAllKeepsKeys(InstallAll(s, batch), gone, strays + Ids(gone));
    MoreStrays(RemoveAll(InstallAll(s, batch), gone), strays + Ids(gone) - Ids(gone), strays);
  }
}
