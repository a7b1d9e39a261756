/** How long a share is held, and what ends with a hold. */
module ShareHolds {
  import opened Wrappers
  import opened ShareRegistry
  import opened ShareSteps
  import opened ShareRuns

  /** The hold on a share is over: it had a deadline, and that has passed. */
  predicate Overdue(s: State, id: Id, ns: Name, now: real) {
    && Open(s, id) && id in s.regs && s.regs[id].key.ns == ns && id in s.keyed.Values
    && s.regs[id].held && s.regs[id].holdUntil.Some? && s.regs[id].holdUntil.value <= now
  }

  lemma OverdueIsLapsed(s: State, id: Id, ns: Name, now: real)
    requires Sound(s) && id in s.regs
    ensures Lapsed(s, id, ns, now) <==> Overdue(s, id, ns, now)
  {
    SoundParts(s);
    hide Sound, Linked, Marked, Drafts;
    if id in s.keyed.Values {
      var k :| k in s.keyed && s.keyed[k] == id;
      assert s.regs[id].key == k;
    }
    if s.regs[id].key in s.keyed && s.keyed[s.regs[id].key] == id {
      assert id in s.keyed.Values;
    }
  }

  lemma {:induction false} RemoveAllCloses(s: State, ids: seq<Id>, id: Id)
    requires id in s.regs
    ensures id in RemoveAll(s, ids).regs
    ensures RemoveAll(s, ids).regs[id].closed <==> s.regs[id].closed || id in ids
    decreases |ids|
  {
    if ids != [] {
      assert id in Remove(s, ids[0]).regs && (Remove(s, ids[0]).regs[id].closed <==> s.regs[id].closed || id == ids[0])
      by { hide Floor, Deserted; }
      hide Remove;
      RemoveAllCloses(Remove(s, ids[0]), ids[1..], id);
    }
  }

  /** An expiry closes exactly the namespace's shares whose hold is over, and no other share. */
  lemma ExpiryClosesTheOverdue(s: State, ns: Name, now: real, order: seq<Id>, id: Id)
    requires Sound(s) && Possible(s, Expiring(ns, now, order)) && id in s.regs && ns in s.namespaces
    ensures id in Expire(s, ns, now, order).regs
    ensures Expire(s, ns, now, order).regs[id].closed <==> s.regs[id].closed || Overdue(s, id, ns, now)
  {
    OverdueIsLapsed(s, id, ns, now);
    RemoveAllCloses(s, order, id);
    hide Sound, RemoveAll, Lapsed, Overdue, Unkeyed;
  }

  /** The namespace goes with its last share, once its owner is gone and the hold on it is over. */
  lemma ExpiryEndsTheNamespace(s: State, ns: Name, now: real, order: seq<Id>)
    requires ns in s.namespaces && ns in RemoveAll(s, order).namespaces
    requires RemoveAll(s, order).namespaces[ns] == s.namespaces[ns]
    ensures var after := Expire(s, ns, now, order);
            ns !in after.namespaces <==>
              && (forall k :: k in after.keyed ==> k.ns != ns) && !s.namespaces[ns].ownerActive
              && (s.namespaces[ns].holdUntil.Some? ==> s.namespaces[ns].holdUntil.value <= now)
  {
    var mid, n := RemoveAll(s, order), s.namespaces[ns];
    var over := n.holdUntil.Some? ==> n.holdUntil.value <= now;
    hide RemoveAll;
    ExpireIs(s, ns, now, order);
    hide Expire;
    if !n.ownerActive && over && Unkeyed(mid, ns) {
      assert ns !in (mid.namespaces - {ns});
    }
  }

  lemma ExpireIs(s: State, ns: Name, now: real, order: seq<Id>)
    requires ns in s.namespaces && ns in RemoveAll(s, order).namespaces
    ensures var mid, after := RemoveAll(s, order), Expire(s, ns, now, order);
            var n := mid.namespaces[ns];
            && after.keyed == mid.keyed
            && (ns !in after.namespaces <==>
                  !n.ownerActive && Unkeyed(mid, ns) && (n.holdUntil.Some? ==> n.holdUntil.value <= now))
  {
    hide RemoveAll, Unkeyed;
  }

  /** A share of the record table that is its owner's in the namespace. */
  predicate IsOf(s: State, id: Id, ns: Name, owner: Owner) {
    id in s.keyed.Values && id in s.regs && s.regs[id].key.ns == ns && s.regs[id].owner == owner
  }

  /** An owner's namespace is closed exactly if it has no active share of the owner's left; then all its
      shares in the record table are closed, and it is gone. */
  lemma ClosingClosesAll(s: State, ns: Name, owner: Owner, order: seq<Id>)
    requires Sound(s) && Possible(s, Closing(ns, owner, order)) && ns in s.namespaces
    ensures var after := CloseNamespace(s, ns, owner, order);
            && (ns !in after.namespaces <==>
                  && s.namespaces[ns].owner == owner
                  && !exists id: Id :: IsOf(s, id, ns, owner) && s.regs[id].active)
            && (ns !in after.namespaces ==>
                  forall k :: k in s.keyed && k.ns == ns && s.keyed[k] in s.regs ==>
                    s.keyed[k] in after.regs && after.regs[s.keyed[k]].closed)
            && (ns in after.namespaces ==> after == s)
  {
    var after := CloseNamespace(s, ns, owner, order);
    ServingIs(s, ns, owner);
    hide Sound, StillServes, RemoveAll;
    if ns !in after.namespaces {
      forall k | k in s.keyed && k.ns == ns && s.keyed[k] in s.regs
        ensures s.keyed[k] in after.regs && after.regs[s.keyed[k]].closed {
        RemoveAllCloses(s, order, s.keyed[k]);
      }
    }
  }

  lemma ServingIs(s: State, ns: Name, owner: Owner)
    requires Sound(s)
    ensures StillServes(s, ns, owner) <==> exists id: Id :: IsOf(s, id, ns, owner) && s.regs[id].active
  {
    SoundParts(s);
    hide Sound, Linked, Marked, Drafts;
    if StillServes(s, ns, owner) {
      var k :| k in s.keyed && k.ns == ns && s.keyed[k] in s.regs && s.regs[s.keyed[k]].owner == owner
        && s.regs[s.keyed[k]].active;
      assert s.regs[s.keyed[k]].key == k && s.keyed[k] in s.keyed.Values;
      assert IsOf(s, s.keyed[k], ns, owner);
    }
    if id: Id :| IsOf(s, id, ns, owner) && s.regs[id].active {
      var k :| k in s.keyed && s.keyed[k] == id;
      assert s.regs[id].key == k;
    }
  }

  predicate Released(s: State, id: Id) {
    id in s.regs && !s.regs[id].held && s.regs[id].holdUntil.None? && s.regs[id].from.None?
  }

  /** A share that has taken over a held one is held itself, with its value, till it is reattached; a
      namespace that is held has all its owner's open shares held to the deadline, and lets another
      owner in till then. */
  lemma HoldsBeginAndEnd(s: State, id: Id, ns: Name, owner: Owner, deadline: real)
    requires Sound(s) && id in s.regs && !s.regs[id].closed
    ensures s.regs[id].from.Some? ==> Released(Reattached(s, id), id)
    ensures ns in s.namespaces && s.namespaces[ns].owner == owner && IsOf(s, id, ns, owner) ==>
        var h := HoldNamespace(s, ns, owner, deadline);
        && id in h.regs && h.regs[id].held && !h.regs[id].active && h.regs[id].holdUntil == Some(deadline)
        && ns in h.namespaces && !h.namespaces[ns].ownerActive && h.namespaces[ns].holdUntil == Some(deadline)
  {
    SoundParts(s);
    hide Sound, Linked, Marked, Drafts;
    if id in s.keyed.Values {
      var k :| k in s.keyed && s.keyed[k] == id;
      assert s.regs[id].key == k;
    }
  }
}
