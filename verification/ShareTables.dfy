/** The registry's tables and markers under every single operation: what a removal, a listing, a
    batch, a reservation and a write each keep. */
module ShareTables {
  import opened Wrappers
  import opened ShareRegistry

  // ----- removal -----

  lemma UnlistAnswers(s: State, id: Id)
    requires RoutesLinked(s) && id in s.regs
    ensures forall r :: Answering(Unlisted(s, id), r) == if Answering(s, r) == Some(id) then None else Answering(s, r)
  {
    forall r ensures Answering(Unlisted(s, id), r) == if Answering(s, r) == Some(id) then None else Answering(s, r) {
      if Answering(s, r) == Some(id) {
        assert RouteAt(s, id) == r;
      }
    }
  }

  lemma UnlistKeys(s: State, id: Id)
    requires KeysLinked(s) && id in s.regs
    ensures var after := Unlisted(s, id);
            && KeysLinked(after)
            && forall k :: k in s.keyed && s.keyed[k] != id ==> k in after.keyed && after.keyed[k] == s.keyed[k]
  {
  }

  lemma UnlistLinks(s: State, id: Id, leaving: set<Id>, newer: set<Id>)
    requires Linked(s, leaving, newer) && id in s.regs && !s.regs[id].closed && id !in newer
    ensures Linked(Unlisted(s, id), leaving - {id}, newer)
  {
    var after := Unlisted(s, id);
    UnlistAnswers(s, id);
    UnlistKeys(s, id);
    assert forall x: Id :: Open(after, x) <==> Open(s, x) && x != id;
    assert forall x: Id :: x in s.regs && x != id ==> x in after.regs && after.regs[x] == s.regs[x];
    hide Unlisted, Answering, Open, KeysLinked;
    forall x: Id | Open(after, x) && x !in leaving - {id} ensures IsRouted(after, x) {
      assert IsRouted(s, x);
    }
    forall x: Id | Open(after, x) && Answering(after, RouteAt(after, x)) != Some(x) ensures Eclipsed(after, x, newer) {
      UnlistEclipses(s, after, id, x, newer);
    }
    assert RoutesLinked(after) by {
      forall r | Answering(after, r).Some?
        ensures Open(after, Answering(after, r).value) && RouteAt(after, Answering(after, r).value) == r {
        assert Answering(s, r) == Answering(after, r);
      }
    }
  }

  lemma UnlistEclipses(s: State, after: State, id: Id, x: Id, newer: set<Id>)
    requires LostToNewer(s, newer) && Open(s, x) && id !in newer && x in after.regs && after.regs[x] == s.regs[x]
    requires forall y: Id :: y in s.regs && y != id ==> y in after.regs && after.regs[y] == s.regs[y]
    requires forall r :: Answering(after, r) == if Answering(s, r) == Some(id) then None else Answering(s, r)
    requires x != id && Answering(after, RouteAt(after, x)) != Some(x)
    ensures Eclipsed(after, x, newer)
  {
    assert Eclipsed(s, x, newer);
  }

  lemma PopLinks(s: State, ns: Name, leaving: set<Id>, newer: set<Id>)
    requires Linked(s, leaving, newer) && Unkeyed(s, ns)
    ensures Linked(s.(namespaces := s.namespaces - {ns}), leaving, newer)
  {
    var after := s.(namespaces := s.namespaces - {ns});
    assert forall r :: Answering(after, r) == Answering(s, r);
    assert forall x: Id :: Open(after, x) <==> Open(s, x);
    forall x: Id | Open(after, x) && x !in leaving ensures IsRouted(after, x) {
      assert IsRouted(s, x);
    }
    forall x: Id | Open(after, x) && Answering(after, RouteAt(after, x)) != Some(x) ensures Eclipsed(after, x, newer) {
      assert Eclipsed(s, x, newer);
    }
  }

  lemma RemoveLinks(s: State, id: Id, leaving: set<Id>, newer: set<Id>)
    requires Linked(s, leaving, newer) && id !in newer
    ensures Linked(Remove(s, id), leaving - {id}, newer)
  {
    hide Unlisted, Linked;
    if id in s.regs && !s.regs[id].closed {
      UnlistLinks(s, id, leaving, newer);
      var u := Unlisted(s, id);
      if Unkeyed(u, s.regs[id].key.ns) {
        PopLinks(u, s.regs[id].key.ns, leaving - {id}, newer);
      }
    } else {
      ClosedNeedNotLeave(s, id, leaving, newer);
    }
  }

  lemma ClosedNeedNotLeave(s: State, id: Id, leaving: set<Id>, newer: set<Id>)
    requires Linked(s, leaving, newer) && !Open(s, id)
    ensures Linked(s, leaving - {id}, newer)
  {
  }

  // ----- listing -----

  /** The tables only read which namespaces there are. */
  lemma NamespacesGrow(s: State, after: State, leaving: set<Id>, newer: set<Id>)
    requires Linked(s, leaving, newer)
    requires after == s.(namespaces := after.namespaces, staged := after.staged, next := after.next)
    requires s.namespaces.Keys <= after.namespaces.Keys
    ensures Linked(after, leaving, newer)
  {
    assert forall r :: Answering(after, r) == Answering(s, r);
    forall x: Id | Open(after, x) && x !in leaving ensures IsRouted(after, x) {
      assert Open(s, x) && IsRouted(s, x);
    }
    forall x: Id | Open(after, x) && Answering(after, RouteAt(after, x)) != Some(x) ensures Eclipsed(after, x, newer) {
      assert Open(s, x) && Eclipsed(s, x, newer);
    }
  }

  function DisplacedSet(s: State, key: Key, top: bool): set<Id> {
    set x | x in Displaced(s, key, top)
  }

  lemma ListedAnswers(s: State, id: Id, reg: Registration)
    ensures forall r :: Answering(Listed(s, id, reg), r) == if r == RouteOf(reg.key, reg.top) then Some(id)
      else Answering(s, r)
  {
  }

  lemma ListLinks(s: State, id: Id, reg: Registration, leaving: set<Id>, gone: set<Id>, newer: set<Id>)
    requires Linked(s, leaving, newer) && !Open(s, id) && id !in leaving && id !in newer && !reg.closed && !reg.staged
    requires reg.key.ns in s.namespaces
    requires gone !! newer && id !in gone
    requires forall x :: Answering(s, RouteOf(reg.key, reg.top)) == Some(x) ==>
      x in gone && MarkerOf(s, x) <= reg.marker
    ensures Linked(Listed(s, id, reg), leaving + gone, newer + {id})
  {
    var after := Listed(s, id, reg);
    assert KeysLinked(s) && RoutesLinked(s) && AllRouted(s, leaving) && LostToNewer(s, newer) && leaving !! newer;
    hide *;
    ListedAnswers(s, id, reg);
    ListFacts(s, id, reg);
    ListKeys(s, id, reg);
    ListTables(s, after, id, reg, gone, leaving);
    ListLoses(s, after, id, reg, newer);
    LinkedParts(after, leaving + gone, newer + {id});
  }

  lemma ListFacts(s: State, id: Id, reg: Registration)
    requires !reg.closed && !reg.staged
    ensures var after := Listed(s, id, reg);
            && (forall x: Id :: Open(after, x) <==> Open(s, x) || x == id)
            && (forall x: Id :: x in s.regs && x != id ==> x in after.regs && after.regs[x] == s.regs[x])
            && after.keyed == s.keyed[reg.key := id] && id in after.regs && after.regs[id] == reg
  {
  }

  /** What is displaced is what the tables name, at the key and at the route. */
  lemma DisplacedFacts(s: State, key: Key, top: bool)
    ensures key in s.keyed ==> s.keyed[key] in DisplacedSet(s, key, top)
    ensures Answering(s, RouteOf(key, top)).Some? ==> Answering(s, RouteOf(key, top)).value in DisplacedSet(s, key, top)
    ensures forall x :: x in DisplacedSet(s, key, top) ==>
              (key in s.keyed && x == s.keyed[key]) || Answering(s, RouteOf(key, top)) == Some(x)
  {
    hide Answering;
  }

  lemma NamedAreOpen(s: State, key: Key, top: bool)
    requires KeysLinked(s) && RoutesLinked(s)
    ensures forall x :: x in DisplacedSet(s, key, top) ==> Open(s, x)
  {
    DisplacedFacts(s, key, top);
    hide DisplacedSet, Displaced, Answering;
  }

  lemma LinkedParts(s: State, leaving: set<Id>, newer: set<Id>)
    requires KeysLinked(s) && RoutesLinked(s) && AllRouted(s, leaving) && LostToNewer(s, newer) && leaving !! newer
    ensures Linked(s, leaving, newer)
  {
  }

  lemma ListLoses(s: State, after: State, id: Id, reg: Registration, newer: set<Id>)
    requires RoutesLinked(s) && LostToNewer(s, newer) && id in after.regs && after.regs[id] == reg && id !in newer
    requires forall x: Id :: Open(after, x) <==> Open(s, x) || x == id
    requires forall x: Id :: x in s.regs && x != id ==> x in after.regs && after.regs[x] == s.regs[x]
    requires var route := RouteOf(reg.key, reg.top);
             && (forall r :: Answering(after, r) == if r == route then Some(id) else Answering(s, r))
             && (Answering(s, route).Some? ==>
                   Answering(s, route).value !in newer && MarkerOf(s, Answering(s, route).value) <= reg.marker)
    ensures LostToNewer(after, newer + {id})
  {
    hide Answering;
    forall x: Id | Open(after, x) && Answering(after, RouteAt(after, x)) != Some(x)
      ensures Eclipsed(after, x, newer + {id}) {
      if Answering(s, RouteAt(s, x)) != Some(x) {
        assert Eclipsed(s, x, newer);
      }
    }
  }

  lemma ListTables(s: State, after: State, id: Id, reg: Registration, gone: set<Id>, leaving: set<Id>)
    requires RoutesLinked(s) && AllRouted(s, leaving) && id in after.regs && after.regs[id] == reg
    requires forall x: Id :: Open(after, x) <==> Open(s, x) || x == id
    requires forall x: Id :: x in s.regs && x != id ==> x in after.regs && after.regs[x] == s.regs[x]
    requires !Open(s, id)
    requires var route := RouteOf(reg.key, reg.top);
             && (Answering(s, route).Some? ==> Answering(s, route).value in gone)
             && forall r :: Answering(after, r) == if r == route then Some(id) else Answering(s, r)
    ensures AllRouted(after, leaving + gone) && RoutesLinked(after)
  {
    hide Answering;
    forall x: Id | Open(after, x) && x !in leaving + gone ensures IsRouted(after, x) {
      if x != id {
        assert IsRouted(s, x);
      }
    }
    forall r | Answering(after, r).Some?
      ensures Open(after, Answering(after, r).value) && RouteAt(after, Answering(after, r).value) == r {
      if r != RouteOf(reg.key, reg.top) {
        assert Answering(s, r) == Answering(after, r) && Open(s, Answering(s, r).value);
      }
    }
  }

  lemma ListKeys(s: State, id: Id, reg: Registration)
    requires KeysLinked(s) && !Open(s, id) && !reg.closed && !reg.staged && reg.key.ns in s.namespaces
    ensures KeysLinked(Listed(s, id, reg))
  {
  }

  // ----- markers under removal and listing -----

  lemma UnlistMarks(s: State, id: Id, newer: set<Id>)
    requires RoutesLinked(s) && LostToNewer(s, newer) && Marked(s) && id in s.regs && !s.regs[id].closed
    ensures Marked(Unlisted(s, id)) && Follows(s, Unlisted(s, id))
  {
    var after, r := Unlisted(s, id), RouteAt(s, id);
    assert Above(s, r) && Draft(s, id);
    assert Open(s, id) && Answering(s, r) != Some(id) ==> Eclipsed(s, id, newer);
    UnlistAnswers(s, id);
    assert forall q :: Floor(after, q) == if q == r then Max(Floor(s, r), s.regs[id].marker) else Floor(s, q);
    assert after.seen == s.seen;
    assert forall x: Id :: x in s.regs && x != id ==> x in after.regs && after.regs[x] == s.regs[x];
    assert after.regs.Keys == s.regs.Keys && after.regs[id].closed;
    assert Answering(s, r) == Some(id)
      || (match Answering(s, r) case Some(y) => y in s.regs && s.regs[id].marker <= s.regs[y].marker
                                                                 case None => s.regs[id].marker <= Floor(s, r));
    assert forall q :: Answering(s, q) == Some(id) ==> q == r;
    hide Unlisted, Answering, Floor, Open, RoutesLinked, LostToNewer;
    forall q ensures Above(after, q) && Standing(s, q) <= Standing(after, q) {
      assert Above(s, q);
      UnlistMarksAt(s, after, id, q);
    }
    forall x: Id ensures Draft(after, x) {
      assert Draft(s, x);
    }
  }

  lemma UnlistMarksAt(s: State, after: State, id: Id, q: Route)
    requires id in s.regs && Above(s, q) && after.seen == s.seen
    requires Answering(after, q) == if Answering(s, q) == Some(id) then None else Answering(s, q)
    requires Floor(after, q) == if q == RouteAt(s, id) then Max(Floor(s, q), s.regs[id].marker) else Floor(s, q)
    requires forall x: Id :: x in s.regs && x != id ==> x in after.regs && after.regs[x] == s.regs[x]
    requires Answering(s, q) == Some(id) ==> q == RouteAt(s, id)
    requires q == RouteAt(s, id) && Answering(s, q) != Some(id) ==>
               match Answering(s, q) case Some(y) => y in s.regs && s.regs[id].marker <= s.regs[y].marker
                                     case None => s.regs[id].marker <= Floor(s, q)
    ensures Above(after, q) && Standing(s, q) <= Standing(after, q)
  {
    hide Answering, Floor;
  }

  lemma SameMarks(s: State, after: State)
    requires Marked(s) && after == s.(namespaces := after.namespaces, staged := after.staged, next := after.next)
    ensures Marked(after) && Follows(s, after)
  {
    assert forall r :: Answering(after, r) == Answering(s, r);
    forall r ensures Above(after, r) && Standing(s, r) <= Standing(after, r) {
      assert Above(s, r);
    }
    forall x: Id ensures Draft(after, x) {
      assert Draft(s, x);
    }
  }

  lemma RemoveMarks(s: State, id: Id, leaving: set<Id>, newer: set<Id>)
    requires Linked(s, leaving, newer) && Marked(s)
    ensures Marked(Remove(s, id)) && Follows(s, Remove(s, id))
  {
    hide Unlisted, Marked, Follows, Deserted;
    if id in s.regs && !s.regs[id].closed {
      UnlistMarks(s, id, newer);
      SameMarks(Unlisted(s, id), Remove(s, id));
      FollowsOn(s, Unlisted(s, id), Remove(s, id));
    } else {
      FollowsItself(s);
    }
  }

  lemma FollowsItself(s: State)
    ensures Follows(s, s)
  {
  }

  lemma FollowsOn(a: State, b: State, c: State)
    requires Follows(a, b) && Follows(b, c)
    ensures Follows(a, c)
  {
    forall r ensures Standing(a, r) <= Standing(c, r) {
      assert Standing(a, r) <= Standing(b, r) <= Standing(c, r);
    }
  }

  /** The marker and the value of a registration may be published at its route: the marker stands
      above all before it, and if it is not new, nor is the value. */
  ghost predicate Publishable(s: State, reg: Registration) {
    var r := RouteOf(reg.key, reg.top);
    && Standing(s, r) <= reg.marker && Floor(s, r) <= reg.marker
    && (reg.checksum.Some? && Mark(r, reg.marker) in s.seen ==> s.seen[Mark(r, reg.marker)] == reg.checksum.value)
  }

  lemma ListMarks(s: State, id: Id, reg: Registration)
    requires RoutesLinked(s) && Marked(s) && Publishable(s, reg) && !Open(s, id) && !reg.closed && !reg.staged
    ensures Marked(Listed(s, id, reg)) && Follows(s, Listed(s, id, reg))
  {
    var after, r := Listed(s, id, reg), RouteOf(reg.key, reg.top);
    ListedAnswers(s, id, reg);
    ListFacts(s, id, reg);
    assert after.seen == Noted(s.seen, r, reg.marker, reg.checksum) && after.floors == s.floors
      && after.regs == s.regs[id := reg];
    forall q ensures Above(after, q) && Standing(s, q) <= Standing(after, q) {
      assert Above(s, q);
      ListMarksAt(s, after, id, reg, q);
    }
    forall x: Id ensures Draft(after, x) {
      assert Draft(s, x);
    }
  }

  lemma ListMarksAt(s: State, after: State, id: Id, reg: Registration, q: Route)
    requires RoutesLinked(s) && Above(s, q) && Publishable(s, reg) && !Open(s, id)
    requires after.seen == Noted(s.seen, RouteOf(reg.key, reg.top), reg.marker, reg.checksum)
    requires after.floors == s.floors && after.regs == s.regs[id := reg]
    requires Answering(after, q) == if q == RouteOf(reg.key, reg.top) then Some(id) else Answering(s, q)
    ensures Above(after, q) && Standing(s, q) <= Standing(after, q)
  {
    hide Answering, Floor;
    assert Answering(s, q).Some? ==> Open(s, Answering(s, q).value);
    assert Floor(s, q) == Floor(after, q) by { FloorOf(s, after, q); }
    var r := RouteOf(reg.key, reg.top);
    forall m | m in after.seen && m.route == q && q != r ensures m in s.seen && after.seen[m] == s.seen[m] {
    }
    if q == r {
      forall m | m in after.seen && m.route == q ensures m.marker <= reg.marker {
        if m in s.seen {
          assert m.marker <= Standing(s, q);
        }
      }
    }
  }

  lemma FloorOf(s: State, after: State, r: Route)
    requires after.floors == s.floors
    ensures Floor(s, r) == Floor(after, r)
  {
  }

  // ----- installing a batch -----

  /** What is held for a route answers there, unless a newer registration does. */
  lemma HeldIsAnswering(s: State, key: Key, top: bool, leaving: set<Id>, newer: set<Id>)
    requires Linked(s, leaving, newer) && DisplacedSet(s, key, top) !! newer
    ensures HeldFor(s, key, top).Some? ==>
      Answering(s, RouteOf(key, top)) == HeldFor(s, key, top) && HeldFor(s, key, top).value in s.regs
  {
    DisplacedFacts(s, key, top);
  }

  lemma {:induction false} RaisedAbove(s: State, marker: nat, ids: seq<Id>)
    ensures RaisedTo(s, marker, ids) >= marker
    ensures forall x :: x in ids ==> MarkerOf(s, x) <= RaisedTo(s, marker, ids)
    ensures RaisedTo(s, marker, ids) == marker || exists x :: x in ids && RaisedTo(s, marker, ids) == MarkerOf(s, x)
    decreases |ids|
  {
    if ids != [] {
      RaisedAbove(s, Max(marker, MarkerOf(s, ids[0])), ids[1..]);
    }
  }

  lemma ReadyShape(s: State, id: Id)
    requires id in s.regs
    ensures var reg := Ready(s, id);
            && reg.key == s.regs[id].key && reg.top == s.regs[id].top && reg.owner == s.regs[id].owner
            && reg.closed == s.regs[id].closed && !reg.staged && reg.supplants == s.regs[id].supplants
            && Floor(s, RouteAt(s, id)) <= reg.marker
            && (forall x :: x in DisplacedSet(s, reg.key, reg.top) ==> MarkerOf(s, x) <= reg.marker)
            && (match HeldFor(s, reg.key, reg.top)
                case Some(h) => h in s.regs ==> reg.checksum == s.regs[h].checksum && s.regs[h].marker <= reg.marker
                case None => reg.checksum == s.regs[id].checksum)
  {
    var reg := s.regs[id];
    var held := HeldFor(s, reg.key, reg.top);
    var adopted := if held.Some? && held.value in s.regs then Adopted(reg, s.regs[held.value], held.value) else reg;
    RaisedAbove(s, adopted.marker, Displaced(s, reg.key, reg.top));
    hide Displaced, HeldFor, Floor, RaisedTo;
  }

  lemma ReadyIsPublishable(s: State, id: Id, leaving: set<Id>, newer: set<Id>)
    requires Linked(s, leaving, newer) && Marked(s) && id in s.regs && s.regs[id].staged && !s.regs[id].closed
    requires DisplacedSet(s, s.regs[id].key, s.regs[id].top) !! newer
    ensures Publishable(s, Ready(s, id))
  {
    var reg, r := Ready(s, id), RouteAt(s, id);
    ReadyShape(s, id);
    HeldIsAnswering(s, reg.key, reg.top, leaving, newer);
    DisplacedFacts(s, reg.key, reg.top);
    assert Above(s, r) && Draft(s, id);
    hide Ready, HeldFor, DisplacedSet, Displaced, Answering, Floor, Linked;
    if reg.checksum.Some? && Mark(r, reg.marker) in s.seen {
      assert Mark(r, reg.marker).marker <= Standing(s, r);
    }
  }

  lemma InstallKeeps(s: State, id: Id, leaving: set<Id>, newer: set<Id>)
    requires Linked(s, leaving, newer) && Marked(s) && id in s.regs && s.regs[id].staged && !s.regs[id].closed
    requires s.regs[id].key.ns in s.namespaces && id !in leaving && id !in newer
    requires DisplacedSet(s, s.regs[id].key, s.regs[id].top) !! newer
    ensures var after := Install(s, id);
            && Linked(after, leaving + DisplacedSet(s, s.regs[id].key, s.regs[id].top), newer + {id})
            && Marked(after) && Follows(s, after)
  {
    var reg := Ready(s, id);
    var listed := Listed(s, id, reg);
    ReadyShape(s, id);
    ReadyIsPublishable(s, id, leaving, newer);
    assert RoutesLinked(s);
    assert Answering(s, RouteOf(reg.key, reg.top)).Some? ==>
             Answering(s, RouteOf(reg.key, reg.top)).value in DisplacedSet(s, reg.key, reg.top) by {
      DisplacedFacts(s, reg.key, reg.top);
    }
    var gone := DisplacedSet(s, reg.key, reg.top);
    assert Install(s, id) == listed.(staged := Install(s, id).staged, namespaces := Install(s, id).namespaces)
           && listed.namespaces.Keys <= Install(s, id).namespaces.Keys;
    hide *;
    hide Linked;
    InstallPart(s, id, reg, leaving, newer, Install(s, id));
  }

  lemma LinkedTables(s: State, leaving: set<Id>, newer: set<Id>)
    requires Linked(s, leaving, newer)
    ensures KeysLinked(s) && RoutesLinked(s)
  {
  }

  lemma InstallPart(s: State, id: Id, reg: Registration, leaving: set<Id>, newer: set<Id>, after: State)
    requires Linked(s, leaving, newer) && Marked(s) && id in s.regs && s.regs[id].staged && !s.regs[id].closed
    requires !reg.closed && !reg.staged && Publishable(s, reg)
    requires reg.key.ns in s.namespaces && id !in leaving && id !in newer
    requires DisplacedSet(s, reg.key, reg.top) !! newer
    requires forall x :: x in DisplacedSet(s, reg.key, reg.top) ==> MarkerOf(s, x) <= reg.marker
    requires var listed := Listed(s, id, reg);
             && after == listed.(staged := after.staged, namespaces := after.namespaces)
             && listed.namespaces.Keys <= after.namespaces.Keys
    ensures Linked(after, leaving + DisplacedSet(s, reg.key, reg.top), newer + {id})
    ensures Marked(after) && Follows(s, after)
  {
    assert RoutesLinked(s) && !Open(s, id);
    DisplacedFacts(s, reg.key, reg.top);
    NamedAreOpen(s, reg.key, reg.top) by { LinkedTables(s, leaving, newer); }
    hide Linked, Marked, Follows, Publishable, Listed, DisplacedSet, Displaced, Answering, RoutesLinked;
    ListLinks(s, id, reg, leaving, DisplacedSet(s, reg.key, reg.top), newer);
    ListMarks(s, id, reg);
    var listed := Listed(s, id, reg);
    NamespacesGrow(listed, after, leaving + DisplacedSet(s, reg.key, reg.top), newer + {id});
    SameMarks(listed, after);
    FollowsOn(s, listed, after);
  }

  function Ids(ids: seq<Id>): set<Id> { set i | i in ids }

  /** The reservations of a batch are still drafts, of namespaces that are there, and collide
      neither with each other nor with those already installed. */
  ghost predicate Installable(s: State, batch: seq<Id>, newer: set<Id>) {
    && (forall i :: 0 <= i < |batch| ==> batch[i] in s.regs && s.regs[batch[i]].staged && !s.regs[batch[i]].closed
                                         && s.regs[batch[i]].key.ns in s.namespaces)
    && Disjoint(s, batch)
    && newer <= s.regs.Keys
    && (forall n, i :: n in newer && 0 <= i < |batch| ==> Clear(s, n, batch[i]))
  }

  lemma InstallRows(s: State, id: Id)
    requires id in s.regs
    ensures var after := Install(s, id);
            && after.regs.Keys == s.regs.Keys && after.namespaces.Keys == s.namespaces.Keys
            && (forall x: Id :: x in s.regs && x != id ==> after.regs[x] == s.regs[x])
            && after.regs[id].key == s.regs[id].key && after.regs[id].top == s.regs[id].top
            && after.regs[id].owner == s.regs[id].owner
            && after.regs[id].closed == s.regs[id].closed && !after.regs[id].staged
  {
    ReadyShape(s, id);
    hide Ready, Noted;
  }

  lemma NoNewerDisplaced(s: State, id: Id, newer: set<Id>, leaving: set<Id>)
    requires Linked(s, leaving, newer) && id in s.regs
    requires newer <= s.regs.Keys && forall n :: n in newer ==> Clear(s, n, id)
    ensures DisplacedSet(s, s.regs[id].key, s.regs[id].top) !! newer
  {
    DisplacedFacts(s, s.regs[id].key, s.regs[id].top);
  }

  lemma RestInstallable(s: State, batch: seq<Id>, newer: set<Id>)
    requires batch != [] && Installable(s, batch, newer)
    ensures Installable(Install(s, batch[0]), batch[1..], newer + {batch[0]})
  {
    InstallRows(s, batch[0]);
    var after, rest := Install(s, batch[0]), batch[1..];
    hide Install;
    forall i | 0 <= i < |rest|
      ensures rest[i] != batch[0] && Clear(s, batch[0], rest[i]) && after.regs[rest[i]] == s.regs[rest[i]] {
      assert Clear(s, batch[0], batch[i + 1]);
    }
    forall i, j | 0 <= i < j < |rest| ensures Clear(after, rest[i], rest[j]) {
      assert Clear(s, batch[i + 1], batch[j + 1]);
    }
    forall n, i | n in newer + {batch[0]} && 0 <= i < |rest| ensures Clear(after, n, rest[i]) {
      assert n in newer ==> Clear(s, n, batch[i + 1]);
    }
  }

  lemma {:induction false} InstallAllKeeps(s: State, batch: seq<Id>, leaving: set<Id>, newer: set<Id>)
    requires Linked(s, leaving, newer) && Marked(s) && Installable(s, batch, newer)
    requires forall x :: x in leaving ==> Open(s, x)
    requires forall i :: 0 <= i < |batch| ==> batch[i] !in newer
    ensures var after := InstallAll(s, batch);
            && Linked(after, leaving + Ids(Displacing(s, batch)), newer + Ids(batch))
            && Marked(after) && Follows(s, after)
    decreases |batch|
  {
    if batch == [] {
      assert leaving + Ids(Displacing(s, batch)) == leaving && newer + Ids(batch) == newer;
      FollowsItself(s);
    } else {
      var id, after := batch[0], Install(s, batch[0]);
      var gone := DisplacedSet(s, s.regs[id].key, s.regs[id].top);
      NoNewerDisplaced(s, id, newer, leaving);
      InstallKeeps(s, id, leaving, newer);
      RestInstallable(s, batch, newer);
      GoneAreOpen(s, id, leaving, newer);
      NotInstalledYet(s, batch);
      DisplacingStep(s, batch, leaving, newer);
      hide *;
      hide Linked;
      InstallAllKeeps(after, batch[1..], leaving + gone, newer + {id});
      FollowsOn(s, after, InstallAll(after, batch[1..]));
      SetsRegroup(leaving, gone, Ids(Displacing(after, batch[1..])));
      SetsRegroup(newer, {id}, Ids(batch[1..]));
    }
  }

  lemma SetsRegroup(a: set<Id>, b: set<Id>, c: set<Id>)
    ensures (a + b) + c == a + (b + c)
  {
  }

  lemma GoneAreOpen(s: State, id: Id, leaving: set<Id>, newer: set<Id>)
    requires Linked(s, leaving, newer) && id in s.regs && s.regs[id].staged
    requires forall x :: x in leaving ==> Open(s, x)
    ensures forall x :: x in leaving + DisplacedSet(s, s.regs[id].key, s.regs[id].top) ==> Open(Install(s, id), x)
  {
    NamedAreOpen(s, s.regs[id].key, s.regs[id].top);
    InstallRows(s, id);
    hide Install, DisplacedSet;
  }

  lemma NotInstalledYet(s: State, batch: seq<Id>)
    requires batch != [] && Disjoint(s, batch) && forall i :: 0 <= i < |batch| ==> batch[i] in s.regs
    ensures forall i :: 0 <= i < |batch| - 1 ==> batch[1..][i] != batch[0]
  {
    forall i | 0 <= i < |batch| - 1 ensures batch[1..][i] != batch[0] {
      assert Clear(s, batch[0], batch[i + 1]);
    }
  }

  lemma DisplacingStep(s: State, batch: seq<Id>, leaving: set<Id>, newer: set<Id>)
    requires batch != [] && batch[0] in s.regs && Linked(s, leaving, newer)
    requires DisplacedSet(s, s.regs[batch[0]].key, s.regs[batch[0]].top) !! newer
    ensures InstallAll(s, batch) == InstallAll(Install(s, batch[0]), batch[1..])
    ensures Ids(Displacing(s, batch)) ==
            DisplacedSet(s, s.regs[batch[0]].key, s.regs[batch[0]].top)
              + Ids(Displacing(Install(s, batch[0]), batch[1..]))
    ensures Ids(batch) == {batch[0]} + Ids(batch[1..])
  {
    var r := s.regs[batch[0]];
    var front, mid, rest := HeldIds(s, r.key, r.top), Displaced(s, r.key, r.top),
      Displacing(Install(s, batch[0]), batch[1..]);
    hide *;
    UnfoldDisplacing(s, batch);
    HeldAreDisplaced(s, r.key, r.top, leaving, newer);
    IdsOfConcat(front, mid, rest);
    IdsHead(batch);
  }

  lemma IdsHead(ids: seq<Id>)
    requires ids != []
    ensures Ids(ids) == {ids[0]} + Ids(ids[1..])
  {
  }

  lemma UnfoldDisplacing(s: State, batch: seq<Id>)
    requires batch != [] && batch[0] in s.regs
    ensures var r := s.regs[batch[0]];
            Displacing(s, batch) == HeldIds(s, r.key, r.top) + Displaced(s, r.key, r.top)
              + Displacing(Install(s, batch[0]), batch[1..])
    ensures InstallAll(s, batch) == InstallAll(Install(s, batch[0]), batch[1..])
  {
    hide Install, HeldIds, Displaced;
  }

  lemma HeldAreDisplaced(s: State, key: Key, top: bool, leaving: set<Id>, newer: set<Id>)
    requires Linked(s, leaving, newer) && DisplacedSet(s, key, top) !! newer
    ensures Ids(Displaced(s, key, top)) == DisplacedSet(s, key, top)
    ensures forall x :: x in HeldIds(s, key, top) ==> x in Ids(Displaced(s, key, top))
  {
    HeldIsAnswering(s, key, top, leaving, newer);
    DisplacedFacts(s, key, top);
    hide HeldFor, Answering, Displaced;
  }

  lemma IdsOfConcat(a: seq<Id>, b: seq<Id>, c: seq<Id>)
    ensures Ids(a + b + c) == Ids(a) + Ids(b) + Ids(c)
    ensures (forall x :: x in a ==> x in Ids(b)) ==> Ids(a + b + c) == Ids(b) + Ids(c)
  {
  }

  // ----- the drafts -----

  lemma {:induction false} RemoveAllKeeps(s: State, ids: seq<Id>, leaving: set<Id>, newer: set<Id>)
    requires Linked(s, leaving, newer) && Marked(s) && Ids(ids) !! newer
    ensures var after := RemoveAll(s, ids);
            Linked(after, leaving - Ids(ids), newer) && Marked(after) && Follows(s, after)
    decreases |ids|
  {
    if ids == [] {
      FollowsItself(s);
      assert leaving - Ids(ids) == leaving;
    } else {
      var after := Remove(s, ids[0]);
      assert Ids(ids) == {ids[0]} + Ids(ids[1..]);
      assert leaving - {ids[0]} - Ids(ids[1..]) == leaving - Ids(ids);
      assert RemoveAll(s, ids) == RemoveAll(after, ids[1..]);
      hide *;
      hide Linked;
      RemoveLinks(s, ids[0], leaving, newer);
      RemoveMarks(s, ids[0], leaving, newer);
      RemoveAllKeeps(after, ids[1..], leaving - {ids[0]}, newer);
      FollowsOn(s, after, RemoveAll(after, ids[1..]));
    }
  }

  /** What a removal does to the rows and to the staged set. */
  lemma RemoveRows(s: State, id: Id)
    ensures var after := Remove(s, id);
            && after.regs.Keys == s.regs.Keys && after.next == s.next
            && (forall x: Id :: x in s.regs && x != id ==> after.regs[x] == s.regs[x])
            && (id in s.regs && !s.regs[id].closed ==>
                  after.regs[id] == s.regs[id].(closed := true, active := false) && after.staged == s.staged - {id})
            && (id !in s.regs || s.regs[id].closed ==> after == s)
  {
    hide Deserted;
  }

  lemma RemoveDrafts(s: State, id: Id)
    requires Drafts(s)
    ensures Drafts(Remove(s, id))
  {
    RemoveRows(s, id);
    hide Remove;
  }

  lemma {:induction false} RemoveAllRows(s: State, ids: seq<Id>)
    requires Drafts(s)
    ensures var after := RemoveAll(s, ids);
            && Drafts(after) && after.regs.Keys == s.regs.Keys && after.next == s.next
            && (forall x: Id :: x in s.regs && x !in Ids(ids) ==> after.regs[x] == s.regs[x])
            && (forall x: Id :: x in s.regs && x in Ids(ids) ==> after.regs[x].closed)
    decreases |ids|
  {
    if ids != [] {
      RemoveRows(s, ids[0]);
      RemoveDrafts(s, ids[0]);
      hide Remove, Drafts;
      RemoveAllRows(Remove(s, ids[0]), ids[1..]);
    }
  }

  lemma InstallDrafts(s: State, id: Id)
    requires Drafts(s) && id in s.staged
    ensures Drafts(Install(s, id)) && Install(s, id).next == s.next
  {
    InstallRows(s, id);
    assert Install(s, id).staged == s.staged - {id} && Install(s, id).next == s.next;
    hide Install;
  }

  lemma {:induction false} InstallAllRows(s: State, batch: seq<Id>)
    requires Drafts(s) && Disjoint(s, batch) && forall i :: 0 <= i < |batch| ==> StagedHere(s, batch[i])
    ensures var after := InstallAll(s, batch);
            && Drafts(after) && after.regs.Keys == s.regs.Keys && after.next == s.next
            && (forall x: Id :: x in s.regs && x !in Ids(batch) ==> after.regs[x] == s.regs[x])
            && (forall x: Id :: x in Ids(batch) ==>
                  Open(after, x) && after.regs[x].key == s.regs[x].key && after.regs[x].top == s.regs[x].top)
    decreases |batch|
  {
    if batch != [] {
      var after := Install(s, batch[0]);
      assert StagedHere(s, batch[0]);
      InstallRows(s, batch[0]);
      InstallDrafts(s, batch[0]);
      assert after.staged == s.staged - {batch[0]};
      var rest := batch[1..];
      hide Install, Drafts, Collide;
      forall i | 0 <= i < |rest| ensures StagedHere(after, rest[i]) {
        assert StagedHere(s, batch[i + 1]) && Clear(s, batch[0], batch[i + 1]);
        CollidesWithItself(s, batch[0]);
      }
      forall i, j | 0 <= i < j < |rest| ensures Clear(after, rest[i], rest[j]) {
        assert Clear(s, batch[i + 1], batch[j + 1]);
      }
      InstallAllRows(after, rest);
    }
  }

  lemma CollidesWithItself(s: State, id: Id)
    requires id in s.regs
    ensures !Clear(s, id, id)
  {
  }
}
