/** The share server's registry: which registration answers at which route, who may take a name
    over, and the markers by which clients name the value they mean to replace. Each transition
    is one locked section of the server. */
module ShareRegistry {
  import opened Wrappers

  type Name = nat
  type Owner = nat
  type Checksum = nat
  type Id = nat

  datatype Key = Key(ns: Name, path: Name)
  datatype Route = AtTop(path: Name) | Within(key: Key)

  /** One reserved URL. `from` is the held registration it took over and has not replaced yet. */
  datatype Registration = Registration(key: Key, top: bool, owner: Owner, staged: bool, supplants: set<Id>,
                                       active: bool, closed: bool, held: bool, holdUntil: Option<real>,
                                         from: Option<Id>,
                                       checksum: Option<Checksum>, marker: nat, ws: nat, fingerprint: Option<nat>)

  datatype Namespace = Namespace(owner: Owner, stagedClaim: bool, ownerActive: bool, closing: bool,
      holdUntil: Option<real>)

  datatype Mark = Mark(route: Route, marker: nat)

  /** `keyed` is the record table of all namespaces together, `top` and `nested` the tables by
      route, `staged` the reservations not yet published. `seen` is history: every marker that was
      published with a checksum, with that checksum. */
  datatype State = State(regs: map<Id, Registration>, namespaces: map<Name, Namespace>,
                         keyed: map<Key, Id>, top: map<Name, Id>, nested: map<Key, Id>, staged: set<Id>,
                         floors: map<Route, nat>, prints: nat, next: Id, seen: map<Mark, Checksum>)

  const EMPTY := State(map[], map[], map[], map[], map[], {}, map[], 0, 0, map[])

  function RouteOf(key: Key, top: bool): Route {
    if top then AtTop(key.path) else Within(key)
  }

  function RouteAt(s: State, id: Id): Route
    requires id in s.regs
  {
    RouteOf(s.regs[id].key, s.regs[id].top)
  }

  function Floor(s: State, r: Route): nat {
    if r in s.floors then s.floors[r] else 0
  }

  /** The registration that answers at a route. */
  function Answering(s: State, r: Route): Option<Id> {
    match r
    case AtTop(p) => if p in s.top then Some(s.top[p]) else None
    case Within(k) => if k in s.nested then Some(s.nested[k]) else None
  }

  function Noted(seen: map<Mark, Checksum>, r: Route, marker: nat, checksum: Option<Checksum>): map<Mark, Checksum> {
    if checksum.Some? then seen[Mark(r, marker) := checksum.value] else seen
  }

  // ----- conflicts -----

  predicate CanTakeOver(s: State, ns: Name, owner: Owner, now: real) {
    && ns in s.namespaces
    && var n := s.namespaces[ns];
       n.owner != owner && !n.ownerActive && n.holdUntil.Some? && now < n.holdUntil.value
  }

  /** The owner may take back what is held under the namespace. */
  predicate MayRejoin(s: State, ns: Name, owner: Owner, now: real) {
    CanTakeOver(s, ns, owner, now) || (ns in s.namespaces && s.namespaces[ns].owner == owner)
  }

  /** The registration `id` stands in the way of the owner's claim. */
  predicate Blocks(s: State, id: Id, ns: Name, owner: Owner, supplants: set<Id>, now: real) {
    id in s.regs && id !in supplants && !(s.regs[id].held && MayRejoin(s, ns, owner, now))
  }

  /** A reservation in the making stands in the way. */
  predicate Clashes(o: Registration, key: Key, top: bool) {
    || (o.top && o.key.path == key.ns)
    || RouteOf(o.key, o.top) == RouteOf(key, top) || o.key == key
    || (top && o.key.ns == key.path)
  }

  predicate Conflict(s: State, key: Key, top: bool, owner: Owner, supplants: set<Id>, ignored: set<Id>, now: real) {
    || (key.ns in s.namespaces && !MayRejoin(s, key.ns, owner, now))
    || (key.ns in s.top && s.top[key.ns] !in supplants)
    || (key.ns in s.namespaces && key in s.keyed && Blocks(s, s.keyed[key], key.ns, owner, supplants, now))
    || (if top then
          || (key.path in s.top && (Blocks(s, s.top[key.path], key.ns, owner, supplants, now)
                                    || (s.top[key.path] in s.regs && s.top[key.path] !in supplants
                                          && s.regs[s.top[key.path]].key.ns != key.ns)))
          || key.path == key.ns || key.path in s.namespaces
        else
          key in s.nested && Blocks(s, s.nested[key], key.ns, owner, supplants, now))
    || (exists other :: other in s.staged && other in s.regs && other !in ignored && other !in supplants
          && Clashes(s.regs[other], key, top))
  }

  // ----- removing -----

  function Without<K, V(==)>(m: map<K, V>, k: K, v: V): map<K, V> {
    if k in m && m[k] == v then m - {k} else m
  }

  function Unlisted(s: State, id: Id): State
    requires id in s.regs
  {
    var r := s.regs[id];
    s.(regs := s.regs[id := r.(closed := true, active := false)],
       staged := s.staged - {id},
       keyed := Without(s.keyed, r.key, id),
       top := if r.top then Without(s.top, r.key.path, id) else s.top,
       nested := if r.top then s.nested else Without(s.nested, r.key, id),
       floors := s.floors[RouteAt(s, id) := Max(Floor(s, RouteAt(s, id)), r.marker)])
  }

  predicate Unkeyed(s: State, ns: Name) {
    forall k :: k in s.keyed ==> k.ns != ns
  }

  predicate Deserted(s: State, ns: Name) {
    && Unkeyed(s, ns)
    && (forall i :: i in s.staged && i in s.regs ==> s.regs[i].key.ns != ns)
  }

  function Remove(s: State, id: Id): State {
    if id !in s.regs || s.regs[id].closed then s
    else
      var r := s.regs[id];
      var u := Unlisted(s, id);
      if r.staged && r.key.ns in u.namespaces && u.namespaces[r.key.ns].stagedClaim && Deserted(u, r.key.ns)
      then u.(namespaces := u.namespaces - {r.key.ns})
      else u
  }

  function RemoveAll(s: State, ids: seq<Id>): State
    decreases |ids|
  {
    if ids == [] then s else RemoveAll(Remove(s, ids[0]), ids[1..])
  }

  // ----- reserving -----

  function HeldFor(s: State, key: Key, top: bool): Option<Id> {
    var r := RouteOf(key, top);
    if key.ns in s.namespaces && key in s.keyed && s.keyed[key] in s.regs
       && s.regs[s.keyed[key]].held && RouteAt(s, s.keyed[key]) == r
    then Some(s.keyed[key])
    else match Answering(s, r)
         case Some(id) => if id in s.regs && s.regs[id].held && RouteAt(s, id) == r then Some(id) else None
         case None => None
  }

  function Adopted(reg: Registration, held: Registration, id: Id): Registration {
    reg.(checksum := held.checksum, marker := Max(reg.marker, held.marker), held := true, from := Some(id))
  }

  function TakenOver(s: State, ns: Name, owner: Owner, now: real): State {
    if CanTakeOver(s, ns, owner, now)
    then s.(namespaces :=
      s.namespaces[ns := s.namespaces[ns].(owner := owner, ownerActive := true, closing := false, holdUntil := None)])
    else s
  }

  function Listed(s: State, id: Id, reg: Registration): State {
    var r := RouteOf(reg.key, reg.top);
    s.(regs := s.regs[id := reg], keyed := s.keyed[reg.key := id],
       top := if reg.top then s.top[reg.key.path := id] else s.top,
       nested := if reg.top then s.nested else s.nested[reg.key := id],
       seen := Noted(s.seen, r, reg.marker, reg.checksum))
  }

  datatype Ask = Ask(key: Key, top: bool, owner: Owner, supplants: set<Id>, staged: bool)

  function Claimed(s: State, a: Ask): State {
    if a.key.ns in s.namespaces then s
    else s.(namespaces := s.namespaces[a.key.ns := Namespace(a.owner, a.staged, true, false, None)])
  }

  function Drafted(s: State, a: Ask): Registration {
    Registration(a.key, a.top, a.owner, a.staged, a.supplants, false, false, false, None, None,
                 None, Floor(s, RouteOf(a.key, a.top)), 0, None)
  }

  /** Publishes a reservation at once, in the place of the held registration of its route. */
  function Published(s: State, id: Id, reg: Registration, now: real): State {
    var held := HeldFor(s, reg.key, reg.top);
    var adopted := if held.Some? && held.value in s.regs then Adopted(reg, s.regs[held.value], held.value) else reg;
    var s := if held.Some? then Remove(s, held.value) else s;
    Listed(TakenOver(s, reg.key.ns, reg.owner, now), id, adopted)
  }

  datatype Outcome = Done(state: State) | Raised(error: RegistryError, state: State)
  datatype RegistryError = InUse | NotStaged | NamespaceGone

  function Reserve(s: State, a: Ask, now: real): Outcome {
    if Conflict(s, a.key, a.top, a.owner, a.supplants, {}, now) then Raised(InUse, s)
    else
      var id := s.next;
      var reg := Drafted(s, a);
      var claimed := Claimed(s, a).(next := s.next + 1);
      if a.staged then Done(claimed.(regs := claimed.regs[id := reg], staged := claimed.staged + {id}))
      else Done(Published(claimed, id, reg, now))
  }

  // ----- committing a batch -----

  predicate StagedHere(s: State, id: Id) {
    id in s.regs && !s.regs[id].closed && s.regs[id].staged && id in s.staged
  }

  function FirstProblem(s: State, batch: seq<Id>, all: set<Id>, now: real): Option<RegistryError> {
    if batch == [] then None
    else if !StagedHere(s, batch[0]) then Some(NotStaged)
    else
      var r := s.regs[batch[0]];
      if Conflict(s, r.key, r.top, r.owner, r.supplants, all, now) then Some(InUse)
      else FirstProblem(s, batch[1..], all, now)
  }

  predicate Collide(a: Registration, b: Registration) {
    || RouteOf(a.key, a.top) == RouteOf(b.key, b.top) || a.key == b.key
    || (a.top && a.key.path == b.key.ns) || (b.top && b.key.path == a.key.ns)
  }

  predicate Clear(s: State, a: Id, b: Id) {
    a in s.regs && b in s.regs ==> !Collide(s.regs[a], s.regs[b])
  }

  predicate Disjoint(s: State, batch: seq<Id>) {
    forall i, j :: 0 <= i < j < |batch| ==> Clear(s, batch[i], batch[j])
  }

  /** Takes over the namespaces of the batch one by one, up to the first that is gone. */
  function TakeNamespaces(s: State, batch: seq<Id>, now: real): Outcome
    decreases |batch|
  {
    if batch == [] then Done(s)
    else if batch[0] !in s.regs || s.regs[batch[0]].key.ns !in s.namespaces then Raised(NamespaceGone, s)
    else TakeNamespaces(TakenOver(s, s.regs[batch[0]].key.ns, s.regs[batch[0]].owner, now), batch[1..], now)
  }

  /** The registrations a staged reservation displaces: that of its key and that of its route. */
  function Displaced(s: State, key: Key, top: bool): seq<Id> {
    (if key in s.keyed then [s.keyed[key]] else [])
    + (match Answering(s, RouteOf(key, top)) case Some(id) => [id] case None => [])
  }

  function MarkerOf(s: State, id: Id): nat {
    if id in s.regs then s.regs[id].marker else 0
  }

  function RaisedTo(s: State, marker: nat, ids: seq<Id>): nat
    decreases |ids|
  {
    if ids == [] then marker else RaisedTo(s, Max(marker, MarkerOf(s, ids[0])), ids[1..])
  }

  function Ready(s: State, id: Id): Registration
    requires id in s.regs
  {
    var reg := s.regs[id];
    var held := HeldFor(s, reg.key, reg.top);
    var adopted := if held.Some? && held.value in s.regs then Adopted(reg, s.regs[held.value], held.value) else reg;
    adopted.(marker := Max(RaisedTo(s, adopted.marker, Displaced(s, reg.key, reg.top)), Floor(s, RouteAt(s, id))),
      staged := false)
  }

  function Install(s: State, id: Id): State
    requires id in s.regs
  {
    var ns := s.regs[id].key.ns;
    var listed := Listed(s, id, Ready(s, id));
    listed.(staged := s.staged - {id},
            namespaces := if ns in s.namespaces then s.namespaces[ns := s.namespaces[ns].(stagedClaim := false)]
              else s.namespaces)
  }

  function HeldIds(s: State, key: Key, top: bool): seq<Id> {
    match HeldFor(s, key, top) case Some(id) => [id] case None => []
  }

  function InstallAll(s: State, batch: seq<Id>): State
    decreases |batch|
  {
    if batch == [] then s
    else if batch[0] !in s.regs then s
    else InstallAll(Install(s, batch[0]), batch[1..])
  }

  /** What the batch displaces on the way, in order. */
  function Displacing(s: State, batch: seq<Id>): seq<Id>
    decreases |batch|
  {
    if batch == [] || batch[0] !in s.regs then []
    else
      var r := s.regs[batch[0]];
      HeldIds(s, r.key, r.top) + Displaced(s, r.key, r.top) + Displacing(Install(s, batch[0]), batch[1..])
  }

  function Commit(s: State, batch: seq<Id>, now: real): Outcome {
    var all := set i | i in batch;
    var problem := FirstProblem(s, batch, all, now);
    if problem.Some? then Raised(problem.value, s)
    else if !Disjoint(s, batch) then Raised(InUse, s)
    else match TakeNamespaces(s, batch, now)
         case Raised(e, t) => Raised(e, t)
         case Done(t) => Done(RemoveAll(InstallAll(t, batch), Displacing(t, batch)))
  }

  // ----- serving -----

  function Activated(s: State, id: Id): State {
    if id in s.regs && !s.regs[id].closed then s.(regs := s.regs[id := s.regs[id].(active := true)]) else s
  }

  /** The held share that a registration took over lets its waiting writers go. */
  function Reattached(s: State, id: Id): State {
    if id in s.regs && !s.regs[id].closed && s.regs[id].from.Some?
    then s.(regs := s.regs[id := s.regs[id].(held := false, holdUntil := None, from := None)])
    else s
  }

  /** Installs a value, or none: what is not there already takes the next marker. */
  function Wrote(s: State, id: Id, c: Option<Checksum>): State
    requires id in s.regs
  {
    var r, reg := RouteAt(s, id), s.regs[id];
    var stamped := reg.(ws := reg.ws + 1, fingerprint := Some(s.prints + 1));
    if reg.checksum == c then s.(regs := s.regs[id := stamped], prints := s.prints + 1)
    else s.(regs := s.regs[id := stamped.(checksum := c, marker := reg.marker + 1)], prints := s.prints + 1,
            floors := s.floors[r := reg.marker + 1], seen := Noted(s.seen, r, reg.marker + 1, c))
  }

  datatype Answer = Installed(state: State) | Mismatch(checksum: Option<Checksum>, marker: nat) | Gone

  /** A client's write, perhaps on condition that the marker is still the one it names. */
  function Put(s: State, id: Id, c: Checksum, expected: Option<nat>): Answer {
    if id !in s.regs || s.regs[id].closed || !s.regs[id].active then Gone
    else if expected.Some? && expected.value != s.regs[id].marker then Mismatch(s.regs[id].checksum, s.regs[id].marker)
    else Installed(Wrote(s, id, Some(c)))
  }

  /** A delivery from the Context, on condition that the fingerprint is the one it expects. */
  function Deliver(s: State, id: Id, c: Option<Checksum>, expected: Option<nat>): Answer {
    if id !in s.regs || s.regs[id].closed || !s.regs[id].active then Gone
    else if expected != s.regs[id].fingerprint then Mismatch(s.regs[id].checksum, s.regs[id].marker)
    else Installed(Wrote(s, id, c))
  }

  function After(s: State, a: Answer): State {
    if a.Installed? then a.state else s
  }

  // ----- holding and closing -----

  function Held(reg: Registration, deadline: Option<real>): Registration {
    reg.(active := false, held := true, holdUntil := deadline)
  }

  function HoldOne(s: State, id: Id): State {
    if id in s.regs && !s.regs[id].closed then s.(regs := s.regs[id := Held(s.regs[id], s.regs[id].holdUntil)]) else s
  }

  predicate Holds(s: State, id: Id, ns: Name, owner: Owner)
    requires id in s.regs
  {
    s.regs[id].key in s.keyed && s.keyed[s.regs[id].key] == id && s.regs[id].key.ns == ns && s.regs[id].owner == owner
      && !s.regs[id].closed
  }

  predicate Owns(s: State, ns: Name, owner: Owner) {
    ns in s.namespaces && s.namespaces[ns].owner == owner
  }

  function BeginClose(s: State, ns: Name, owner: Owner): State {
    if !Owns(s, ns, owner) then s else s.(namespaces := s.namespaces[ns := s.namespaces[ns].(closing := true)])
  }

  function HoldNamespace(s: State, ns: Name, owner: Owner, deadline: real): State {
    if !Owns(s, ns, owner) then s
    else s.(regs := map id | id in s.regs :: if Holds(s, id, ns, owner) then Held(s.regs[id], Some(deadline))
      else s.regs[id],
            namespaces := s.namespaces[ns :=
              s.namespaces[ns].(closing := false, ownerActive := false, holdUntil := Some(deadline))])
  }

  predicate Lapsed(s: State, id: Id, ns: Name, now: real)
    requires id in s.regs
  {
    var reg := s.regs[id];
    && reg.key in s.keyed && s.keyed[reg.key] == id && reg.key.ns == ns
    && reg.held && reg.holdUntil.Some? && reg.holdUntil.value <= now
  }

  /** `order` lists the registrations of the namespace whose hold has lapsed. */
  function Expire(s: State, ns: Name, now: real, order: seq<Id>): State {
    if ns !in s.namespaces then s
    else
      var s := RemoveAll(s, order);
      if ns !in s.namespaces then s
      else
        var n := s.namespaces[ns];
        var n := if n.holdUntil.Some? && n.holdUntil.value <= now then n.(holdUntil := None) else n;
        if !n.ownerActive && n.holdUntil.None? && Unkeyed(s, ns) then s.(namespaces := s.namespaces - {ns})
        else s.(namespaces := s.namespaces[ns := n])
  }

  predicate StillServes(s: State, ns: Name, owner: Owner) {
    exists k :: k in s.keyed && k.ns == ns && s.keyed[k] in s.regs && s.regs[s.keyed[k]].owner == owner
      && s.regs[s.keyed[k]].active
  }

  /** `order` lists the namespace's registrations and the owner's reservations in it. */
  function CloseNamespace(s: State, ns: Name, owner: Owner, order: seq<Id>): State {
    if !Owns(s, ns, owner) || StillServes(s, ns, owner) then s
    else
      var s := RemoveAll(s, order);
      s.(namespaces := s.namespaces - {ns})
  }

  // ----- coherence -----

  predicate Open(s: State, id: Id) {
    id in s.regs && !s.regs[id].closed && !s.regs[id].staged
  }

  ghost predicate KeysLinked(s: State) {
    forall k :: k in s.keyed ==> Open(s, s.keyed[k]) && s.regs[s.keyed[k]].key == k && k.ns in s.namespaces
  }

  ghost predicate RoutesLinked(s: State) {
    forall r :: Answering(s, r).Some? ==> Open(s, Answering(s, r).value) && RouteAt(s, Answering(s, r).value) == r
  }

  predicate IsKeyed(s: State, id: Id)
    requires id in s.regs
  {
    s.regs[id].key in s.keyed && s.keyed[s.regs[id].key] == id
  }

  predicate IsRouted(s: State, id: Id)
    requires id in s.regs
  {
    Answering(s, RouteAt(s, id)) == Some(id)
  }

  ghost predicate AllRouted(s: State, leaving: set<Id>) {
    forall id: Id :: Open(s, id) && id !in leaving ==> IsRouted(s, id)
  }

  /** Only these open registrations may be missing from the record table. */
  ghost predicate AllKeyed(s: State, strays: set<Id>) {
    forall id: Id :: Open(s, id) && id !in strays ==> IsKeyed(s, id)
  }

  /** A registration without its route has lost it to one of the newer ones, with a marker no
      smaller. */
  predicate Eclipsed(s: State, id: Id, newer: set<Id>)
    requires id in s.regs
  {
    match Answering(s, RouteAt(s, id))
    case Some(other) => other in newer && other in s.regs && s.regs[id].marker <= s.regs[other].marker
    case None => false
  }

  ghost predicate LostToNewer(s: State, newer: set<Id>) {
    forall id: Id :: Open(s, id) && Answering(s, RouteAt(s, id)) != Some(id) ==> Eclipsed(s, id, newer)
  }

  /** The tables name open, published registrations under their own keys and routes; and every
      open, published one answers at its route, except those that are leaving. */
  ghost predicate Linked(s: State, leaving: set<Id>, newer: set<Id>) {
    KeysLinked(s) && RoutesLinked(s) && AllRouted(s, leaving) && LostToNewer(s, newer) && leaving !! newer
  }

  ghost predicate Coherent(s: State) { Linked(s, {}, {}) && AllKeyed(s, {}) }

  /** The staged set holds exactly the open reservations, and none of them is active; ids are new. */
  ghost predicate Drafts(s: State) {
    && (forall id: Id :: id in s.regs && s.regs[id].active ==> Open(s, id))
    && (forall id: Id :: id in s.regs ==> id < s.next)
    && (forall id: Id :: id in s.staged <==> id in s.regs && !s.regs[id].closed && s.regs[id].staged)
  }

  /** At its route, a published registration's marker is above the floor and every marker seen;
      and its value is the one seen with its marker. */
  ghost predicate Above(s: State, r: Route) {
    match Answering(s, r)
    case Some(id) =>
      && id in s.regs
      && Floor(s, r) <= s.regs[id].marker
      && (forall m :: m in s.seen && m.route == r ==> m.marker <= s.regs[id].marker)
      && (s.regs[id].checksum.Some? ==>
            Mark(r, s.regs[id].marker) in s.seen && s.seen[Mark(r, s.regs[id].marker)] == s.regs[id].checksum.value)
    case None =>
      forall m :: m in s.seen && m.route == r ==> m.marker <= Floor(s, r)
  }

  ghost predicate Draft(s: State, id: Id) {
    id in s.regs && !s.regs[id].closed && s.regs[id].staged ==>
      s.regs[id].marker <= Floor(s, RouteAt(s, id)) && s.regs[id].checksum.None?
  }

  ghost predicate Marked(s: State) {
    (forall r :: Above(s, r)) && (forall id: Id :: Draft(s, id))
  }

  ghost predicate Sound(s: State) { Linked(s, {}, {}) && Drafts(s) && Marked(s) }

  function Standing(s: State, r: Route): nat {
    match Answering(s, r) case Some(id) => MarkerOf(s, id) case None => Floor(s, r)
  }

  /** History goes on: at no route does the published marker drop, and no marker is published
      anew with another checksum. */
  ghost predicate Follows(s: State, after: State) {
    && (forall r :: Standing(s, r) <= Standing(after, r))
    && (forall m :: m in s.seen ==> m in after.seen && after.seen[m] == s.seen[m])
  }
}
