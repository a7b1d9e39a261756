/** The ledger of transformer runs. A run is launched for a demand key; an edit supersedes it, and
    while it is held a revert can bring it back. Completions arrive late, repeatedly, or for runs
    that are gone. */
module RunLedger {
  import opened Wrappers
  import D = Derivation

  type Path = nat
  type Key = D.Key

  /** What an execution brings: a fact. */
  type Outcome = D.Fact

  datatype Phase = Running | Superseded | Cancelled | Completed
  datatype Hold = Unheld | Upstream | SelfEdit

  datatype Record = Record(generation: nat, key: Key, outcome: Option<Outcome>, phase: Phase,
                           hold: Hold, deadline: real, scratch: bool)

  /** What a node shows: the outcome of its current run, that it computes, or that it has none. */
  datatype Node = Shows(outcome: Outcome) | Computing | Without

  datatype Launch = Launch(path: Path, key: Key)
  datatype Completion = Completion(path: Path, generation: nat, outcome: Outcome)

  /** The generation counter, and the history: what was `launched` and what it `produced`, which
      executions are `running`, which have been asked to stop, and which were `forced` for a value
      no longer in reach. `mail` holds the completions on their way. */
  datatype Log = Log(generation: nat, launched: map<nat, Launch>, produced: map<nat, Outcome>, running: set<nat>,
                     stopped: set<nat>, forced: set<nat>, mail: set<Completion>)

  /** `demand` is the key each node was last derived for. */
  datatype Ledger = Ledger(current: map<Path, Record>, held: map<Path, seq<Record>>,
                           nodes: map<Path, Node>, demand: map<Path, Key>, log: Log)

  const CAP: nat := 3
  const SELF_EDIT_HOLD: real := 30.0
  const UPSTREAM_HOLD: real := 300.0

  function HeldAt(l: Ledger, p: Path): seq<Record> {
    if p in l.held then l.held[p] else []
  }

  function Generations(records: seq<Record>): set<nat> {
    set r | r in records :: r.generation
  }

  function Stop(log: Log, generations: set<nat>): Log {
    log.(stopped := log.stopped + generations)
  }

  // ----- superseding, releasing, finding -----

  function Suspended(r: Record, unresolved: bool, now: real): Record {
    r.(phase := Superseded, hold := if unresolved then Upstream else SelfEdit,
       deadline := now + if unresolved then UPSTREAM_HOLD else SELF_EDIT_HOLD)
  }

  function Newest(records: seq<Record>): seq<Record> {
    if |records| > CAP then records[|records| - CAP..] else records
  }

  function Oldest(records: seq<Record>): seq<Record> {
    if |records| > CAP then records[..|records| - CAP] else []
  }

  function Suspend(l: Ledger, p: Path, unresolved: bool, now: real): Ledger {
    if p !in l.current then l
    else
      var queue := HeldAt(l, p) + [Suspended(l.current[p], unresolved, now)];
      l.(current := l.current - {p}, held := l.held[p := Newest(queue)], log := Stop(l.log, Generations(Oldest(queue))))
  }

  predicate Stays(r: Record, key: Key) {
    r.hold != Upstream || r.phase == Cancelled || r.key == key
  }

  function Staying(records: seq<Record>, key: Key): seq<Record> {
    if records == [] then []
    else (if Stays(records[0], key) then [records[0]] else []) + Staying(records[1..], key)
  }

  function Leaving(records: seq<Record>, key: Key): set<nat> {
    set r | r in records && !Stays(r, key) :: r.generation
  }

  function Release(l: Ledger, p: Path, key: Key): Ledger {
    if p !in l.held then l
    else l.(held := l.held[p := Staying(l.held[p], key)], log := Stop(l.log, Leaving(l.held[p], key)))
  }

  predicate Matches(r: Record, key: Key, skip: Option<nat>) {
    r.key == key && r.phase != Cancelled && skip != Some(r.generation)
  }

  /** The oldest held run for `key`, or the length of the queue. */
  function FirstMatch(records: seq<Record>, key: Key, skip: Option<nat>): (i: nat)
    ensures i <= |records|
    ensures i < |records| ==> Matches(records[i], key, skip)
    ensures forall j :: 0 <= j < i ==> !Matches(records[j], key, skip)
  {
    if records == [] then 0
    else if Matches(records[0], key, skip) then 0
    else 1 + FirstMatch(records[1..], key, skip)
  }

  // ----- deriving a transformer -----

  /** What a derivation finds: an input is missing, or there is a key to compute. `unresolved`
      says that a source still works; `wanted` that a non-scratch holder needs the value, and
      `missing` that the value is out of reach. */
  datatype Demand = Unavailable(unresolved: bool)
                  | Want(key: Key, unresolved: bool, wanted: bool, missing: bool, scratch: bool)

  function Publish(l: Ledger, p: Path, r: Record): Ledger {
    l.(nodes := l.nodes[p := if r.outcome.Some? then Shows(r.outcome.value) else Computing])
  }

  function Launched(log: Log, p: Path, key: Key, force: bool): Log {
    var g := log.generation + 1;
    log.(generation := g, launched := log.launched[g := Launch(p, key)], running := log.running + {g},
         forced := if force then log.forced + {g} else log.forced)
  }

  function Start(l: Ledger, p: Path, key: Key, scratch: bool, force: bool): Ledger {
    var r := Record(l.log.generation + 1, key, None, Running, Unheld, 0.0, scratch);
    l.(current := l.current[p := r], nodes := l.nodes[p := Computing], log := Launched(l.log, p, key, force))
  }

  function Posted(log: Log, m: Completion): Log {
    log.(mail := log.mail + {m})
  }

  /** A held run comes back. If it has completed, its outcome arrives as a later message. */
  function Reinstate(l: Ledger, p: Path, i: nat): Ledger
    requires i < |HeldAt(l, p)|
  {
    var queue := HeldAt(l, p);
    var back := queue[i].(outcome := None, phase := Running, hold := Unheld);
    var l := l.(held := l.held[p := queue[..i] + queue[i + 1..]], current := l.current[p := back],
                nodes := l.nodes[p := Computing]);
    if queue[i].outcome.None? then l
    else l.(log := Posted(l.log, Completion(p, back.generation, queue[i].outcome.value)))
  }

  predicate NeedsRerun(r: Record, d: Demand)
    requires d.Want?
  {
    r.outcome.Some? && r.outcome.value.Value? && r.scratch && d.wanted && d.missing
  }

  function Resume(l: Ledger, p: Path, d: Demand, force: Option<nat>): Ledger
    requires d.Want?
  {
    var i := FirstMatch(HeldAt(l, p), d.key, force);
    if i < |HeldAt(l, p)| then Reinstate(l, p, i) else Start(l, p, d.key, d.scratch, force.Some?)
  }

  function Derive(l: Ledger, p: Path, d: Demand, now: real): Ledger {
    match d
    case Unavailable(unresolved) =>
      var l := Suspend(l, p, unresolved, now);
      l.(nodes := l.nodes[p := Without], demand := l.demand - {p})
    case Want(key, unresolved, _, _, _) =>
      var l := Release(l, p, key).(demand := l.demand[p := key]);
      var again := p in l.current && l.current[p].key == key;
      if again && !NeedsRerun(l.current[p], d) then Publish(l, p, l.current[p])
      else Resume(Suspend(l, p, unresolved, now), p, d, if again then Some(l.current[p].generation) else None)
  }

  // ----- completions and housekeeping -----

  predicate Names(r: Record, g: nat) { r.generation == g && r.phase != Cancelled }

  function Filled(r: Record, g: nat, o: Outcome): Record {
    if !Names(r, g) then r
    else r.(outcome := Some(o), phase := if r.phase == Superseded then r.phase else Completed)
  }

  predicate Findable(l: Ledger, p: Path, g: nat) {
    || (p in l.current && l.current[p].generation == g)
    || (exists r :: r in HeldAt(l, p) && Names(r, g))
  }

  function FillAll(records: seq<Record>, g: nat, o: Outcome): (r: seq<Record>)
    ensures |r| == |records| && forall i :: 0 <= i < |r| ==> r[i] == Filled(records[i], g, o)
  {
    seq(|records|, i requires 0 <= i < |records| => Filled(records[i], g, o))
  }

  function Entered(l: Ledger, m: Completion): Ledger {
    l.(current := if m.path !in l.current then l.current
                  else l.current[m.path := Filled(l.current[m.path], m.generation, m.outcome)],
       held := if m.path in l.held then l.held[m.path := FillAll(l.held[m.path], m.generation, m.outcome)] else l.held)
  }

  /** A completion is handled. It may come again: then `last` is false. */
  function Finish(l: Ledger, m: Completion, last: bool, d: Demand, now: real): Ledger {
    var taken := if last then l.(log := l.log.(mail := l.log.mail - {m})) else l;
    if !Findable(l, m.path, m.generation) then taken
    else Derive(Entered(taken, m), m.path, d, now)
  }

  predicate Expires(r: Record, g: nat, now: real) { r.generation == g && r.deadline <= now }

  function Unexpired(records: seq<Record>, g: nat, now: real): seq<Record> {
    if records == [] then []
    else (if Expires(records[0], g, now) then [] else [records[0]]) + Unexpired(records[1..], g, now)
  }

  function Expire(l: Ledger, p: Path, g: nat, now: real): Ledger {
    if p !in l.held then l
    else l.(held := l.held[p := Unexpired(l.held[p], g, now)],
            log := Stop(l.log, set r | r in l.held[p] && Expires(r, g, now) :: r.generation))
  }

  function Prune(l: Ledger, paths: set<Path>): Ledger {
    l.(held := l.held - paths, log :=
      Stop(l.log, set p, r | p in paths && p in l.held && r in l.held[p] :: r.generation))
  }

  function WithoutRun(l: Ledger, p: Path): Ledger {
    if p !in l.current then l
    else l.(current := l.current - {p}, log := Stop(l.log, {l.current[p].generation}))
  }

  function Delete(l: Ledger, p: Path): Ledger {
    var l := Prune(WithoutRun(l, p), {p});
    l.(nodes := l.nodes - {p}, demand := l.demand - {p})
  }

  /** Another graph takes over. Generations go on, so late completions match nothing. */
  function Replace(l: Ledger): Ledger {
    Ledger(map[], map[], map[], map[], Stop(l.log, l.log.launched.Keys))
  }

  datatype Event =
    | Derived(p: Path, d: Demand, now: real)
    | Ended(g: nat, o: Outcome)                  // an execution ends and posts its completion
    | Died(g: nat)                               // an execution that was asked to stop does
    | Finished(m: Completion, last: bool, d: Demand, now: real)
    | Expired(p: Path, g: nat, now: real)
    | Pruned(paths: set<Path>)
    | Deleted(p: Path)
    | Replaced
    | Cleared(p: Path, d: Demand, now: real)     // the node's exception is cleared
    | Elsewhere                                  // a cell's run takes a generation

  predicate Possible(l: Ledger, e: Event) {
    match e
    case Ended(g, _) => g in l.log.running && g in l.log.launched
    case Died(g) => g in l.log.running && g in l.log.stopped
    case Finished(m, _, _, _) => m in l.log.mail
    case _ => true
  }

  function Next(l: Ledger, e: Event): Ledger
    requires Possible(l, e)
  {
    match e
    case Derived(p, d, now) => Derive(l, p, d, now)
    case Ended(g, o) =>
      l.(log := Posted(l.log.(running := l.log.running - {g}, produced := l.log.produced[g := o]),
                       Completion(l.log.launched[g].path, g, o)))
    case Died(g) => l.(log := l.log.(running := l.log.running - {g}))
    case Finished(m, last, d, now) => Finish(l, m, last, d, now)
    case Expired(p, g, now) => Expire(l, p, g, now)
    case Pruned(paths) => Prune(l, paths)
    case Deleted(p) => Delete(l, p)
    case Replaced => Replace(l)
    case Cleared(p, d, now) => Derive(WithoutRun(l, p), p, d, now)
    case Elsewhere => l.(log := l.log.(generation := l.log.generation + 1))
  }

  // ----- the invariant -----

  /** A run in the ledger was launched at its path for its key, its outcome is what its execution
      produced, and while it has none its execution runs on or has a completion on its way. */
  predicate Genuine(log: Log, p: Path, r: Record) {
    && r.phase != Cancelled
    && r.generation in log.launched && log.launched[r.generation] == Launch(p, r.key)
    && r.generation !in log.stopped
    && (r.outcome.Some? ==> r.generation in log.produced && log.produced[r.generation] == r.outcome.value)
    && (r.outcome.None? && r.generation !in log.running ==>
          r.generation in log.produced && Completion(p, r.generation, log.produced[r.generation]) in log.mail)
  }

  /** Two runs of a path for one key: the later one was forced. */
  predicate Apart(log: Log, r: Record, s: Record) {
    && r.generation != s.generation
    && (r.key == s.key ==> (if r.generation < s.generation then s.generation else r.generation) in log.forced)
  }

  ghost predicate AllGenuine(log: Log, p: Path, queue: seq<Record>) {
    forall r :: r in queue ==> Genuine(log, p, r)
  }

  ghost predicate AllApart(log: Log, queue: seq<Record>) {
    forall i, j :: 0 <= i < j < |queue| ==> Apart(log, queue[i], queue[j])
  }

  ghost predicate PathSound(l: Ledger, p: Path) {
    && |HeldAt(l, p)| <= CAP && AllGenuine(l.log, p, HeldAt(l, p)) && AllApart(l.log, HeldAt(l, p))
    && (p in l.current ==>
          && Genuine(l.log, p, l.current[p])
          && forall r :: r in HeldAt(l, p) ==> Apart(l.log, r, l.current[p]))
  }

  predicate Books(log: Log) {
    && (forall g :: g in log.launched ==> 0 < g <= log.generation)
    && log.produced.Keys <= log.launched.Keys && log.running <= log.launched.Keys && log.stopped <= log.launched.Keys
    && log.produced.Keys !! log.running
    && (forall m :: m in log.mail ==>
          m.generation in log.produced && log.launched[m.generation].path == m.path
            && log.produced[m.generation] == m.outcome)
  }

  /** A node shows what its current run has, and that run is for the key it was derived for. */
  predicate Displays(l: Ledger, p: Path) {
    p in l.nodes ==>
      match l.nodes[p]
      case Shows(o) => p in l.current && p in l.demand && l.current[p].key == l.demand[p]
        && l.current[p].outcome == Some(o)
      case Computing => p in l.current && p in l.demand && l.current[p].key == l.demand[p] && l.current[p].outcome.None?
      case Without => p !in l.current
  }

  ghost predicate Kept(l: Ledger) {
    Books(l.log) && forall p :: PathSound(l, p)
  }

  ghost predicate Sound(l: Ledger) {
    Kept(l) && forall p :: Displays(l, p)
  }

  const EMPTY := Ledger(map[], map[], map[], map[], Log(0, map[], map[], {}, {}, {}, {}))

  // ----- how the log may grow -----

  /** Nothing recorded is lost, and no execution at a path other than `p` is asked to stop. */
  predicate Grows(log: Log, after: Log, p: Path) {
    && log.launched.Keys <= after.launched.Keys
    && (forall g :: g in log.launched ==> after.launched[g] == log.launched[g])
    && log.produced == after.produced && log.running <= after.running && log.forced <= after.forced
    && log.mail <= after.mail
    && (forall g :: g in after.stopped && g !in log.stopped ==> g in log.launched && log.launched[g].path == p)
  }

  lemma GenuineGrows(log: Log, after: Log, p: Path, q: Path, r: Record)
    requires Grows(log, after, p) && Genuine(log, q, r) && (p != q || r.generation !in after.stopped)
    ensures Genuine(after, q, r)
  {
  }

  /** A step at one path leaves the runs of every other path sound. */
  lemma OtherPath(l: Ledger, after: Ledger, p: Path, q: Path)
    requires PathSound(l, q) && p != q && Grows(l.log, after.log, p)
    requires HeldAt(after, q) == HeldAt(l, q)
    requires q in l.current <==> q in after.current
    requires q in l.current ==> after.current[q] == l.current[q]
    ensures PathSound(after, q)
  {
    forall r | r in HeldAt(after, q) ensures Genuine(after.log, q, r) {
      GenuineGrows(l.log, after.log, p, q, r);
    }
    if q in l.current {
      GenuineGrows(l.log, after.log, p, q, l.current[q]);
    }
  }

  /** `after` differs from `l` in the runs of `p` only. */
  ghost predicate OnlyAt(l: Ledger, after: Ledger, p: Path) {
    forall q :: q != p ==>
      && HeldAt(after, q) == HeldAt(l, q)
      && (q in l.current <==> q in after.current)
      && (q in l.current ==> after.current[q] == l.current[q])
  }

  lemma OnePathIsEnough(l: Ledger, after: Ledger, p: Path)
    requires Kept(l) && OnlyAt(l, after, p) && Books(after.log) && Grows(l.log, after.log, p) && PathSound(after, p)
    ensures Kept(after)
  {
    hide PathSound, Grows, Books;
    forall q ensures PathSound(after, q) {
      if q != p {
        OtherPath(l, after, p, q);
      }
    }
  }

  // ----- each operation keeps the ledger sound -----

  lemma SuspendKeeps(l: Ledger, p: Path, unresolved: bool, now: real)
    requires Kept(l)
    ensures var after := Suspend(l, p, unresolved, now);
            && Kept(after) && OnlyAt(l, after, p) && p !in after.current
  {
    if p in l.current {
      var after := Suspend(l, p, unresolved, now);
      var back := Suspended(l.current[p], unresolved, now);
      var queue := HeldAt(l, p) + [back];
      assert PathSound(l, p);
      QueueTaken(l.log, p, HeldAt(l, p), l.current[p], back);
      TrimKeeps(l.log, p, queue);
      StopIsBooked(l.log, p, queue, Oldest(queue));
      OnePathIsEnough(l, after, p);
    }
  }

  /** The current run joins the queue. */
  lemma QueueTaken(log: Log, p: Path, queue: seq<Record>, r: Record, back: Record)
    requires AllGenuine(log, p, queue) && AllApart(log, queue) && Genuine(log, p, r)
    requires forall s :: s in queue ==> Apart(log, s, r)
    requires back.generation == r.generation && back.key == r.key && back.outcome == r.outcome
    requires back.phase != Cancelled
    ensures AllGenuine(log, p, queue + [back]) && AllApart(log, queue + [back])
  {
    var q := queue + [back];
    forall i, j | 0 <= i < j < |q| ensures Apart(log, q[i], q[j]) {
      if j == |queue| {
        assert q[i] == queue[i] && queue[i] in queue;
      }
    }
  }

  /** Dropping the oldest leaves runs that are not asked to stop. */
  lemma TrimKeeps(log: Log, p: Path, queue: seq<Record>)
    requires AllGenuine(log, p, queue) && AllApart(log, queue)
    ensures var stopped := Stop(log, Generations(Oldest(queue)));
            AllGenuine(stopped, p, Newest(queue)) && AllApart(stopped, Newest(queue))
  {
    var cut := |queue| - |Newest(queue)|;
    assert Newest(queue) == queue[cut..];
    assert forall i :: 0 <= i < |Newest(queue)| ==> Newest(queue)[i] == queue[cut + i];
    var stopped := Stop(log, Generations(Oldest(queue)));
    forall r | r in Newest(queue) ensures Genuine(stopped, p, r) {
      var i :| 0 <= i < |Newest(queue)| && Newest(queue)[i] == r;
      assert r == queue[cut + i] && r in queue;
      forall s | s in Oldest(queue) ensures s.generation != r.generation {
        var j :| 0 <= j < |Oldest(queue)| && Oldest(queue)[j] == s;
        assert Apart(log, queue[j], queue[cut + i]);
      }
    }
  }

  /** Stopping runs of one path is entered in the books. */
  lemma StopIsBooked(log: Log, p: Path, queue: seq<Record>, leaving: seq<Record>)
    requires Books(log) && AllGenuine(log, p, queue) && forall r :: r in leaving ==> r in queue
    ensures Books(Stop(log, Generations(leaving))) && Grows(log, Stop(log, Generations(leaving)), p)
  {
    forall g | g in Generations(leaving) ensures g in log.launched && log.launched[g].path == p {
      var r :| r in leaving && r.generation == g;
      assert Genuine(log, p, r);
    }
  }

  lemma {:induction false} StayingIsApart(log: Log, queue: seq<Record>, key: Key)
    requires AllApart(log, queue)
    ensures AllApart(log, Staying(queue, key)) && |Staying(queue, key)| <= |queue|
    ensures forall r :: r in Staying(queue, key) <==> r in queue && Stays(r, key)
  {
    if queue != [] {
      StayingIsApart(log, queue[1..], key);
      var rest, whole := Staying(queue[1..], key), Staying(queue, key);
      forall i, j | 0 <= i < j < |whole| ensures Apart(log, whole[i], whole[j]) {
        if Stays(queue[0], key) && i == 0 {
          assert whole[j] == rest[j - 1] && rest[j - 1] in rest;
          var k :| 0 <= k < |queue| - 1 && queue[1..][k] == rest[j - 1];
          assert queue[k + 1] == rest[j - 1];
        }
      }
    }
  }

  lemma SameGeneration(log: Log, queue: seq<Record>, r: Record, s: Record)
    requires AllApart(log, queue) && r in queue && s in queue && r.generation == s.generation
    ensures r == s
  {
    assert forall i, j :: 0 <= i < j < |queue| && Apart(log, queue[i], queue[j]) ==>
      queue[i].generation != queue[j].generation;
  }

  lemma ReleaseKeeps(l: Ledger, p: Path, key: Key)
    requires Kept(l)
    ensures var after := Release(l, p, key);
            && Kept(after) && OnlyAt(l, after, p) && after.current == l.current
            && (forall r :: r in HeldAt(l, p) && r.key == key ==> r in HeldAt(after, p))
            && |HeldAt(after, p)| <= |HeldAt(l, p)|
  {
    if p in l.held {
      var after, queue := Release(l, p, key), l.held[p];
      assert PathSound(l, p);
      StayingIsApart(l.log, queue, key);
      forall g | g in Leaving(queue, key) ensures g in l.log.launched && l.log.launched[g].path == p {
        var r :| r in queue && r.generation == g;
        assert Genuine(l.log, p, r);
      }
      assert Books(after.log) && Grows(l.log, after.log, p);
      forall r | r in HeldAt(after, p) ensures Genuine(after.log, p, r) {
        if r.generation in Leaving(queue, key) {
          var s :| s in queue && !Stays(s, key) && s.generation == r.generation;
          SameGeneration(l.log, queue, r, s);
        }
      }
      OnePathIsEnough(l, after, p);
    }
  }

  lemma StartKeeps(l: Ledger, p: Path, key: Key, scratch: bool, force: bool)
    requires Kept(l) && p !in l.current
    requires force || forall r :: r in HeldAt(l, p) ==> r.key != key
    ensures var after := Start(l, p, key, scratch, force);
            Kept(after) && OnlyAt(l, after, p)
  {
    var after := Start(l, p, key, scratch, force);
    assert PathSound(l, p);
    forall r | r in HeldAt(l, p) ensures Genuine(after.log, p, r) && Apart(after.log, r, after.current[p]) {
      assert Genuine(l.log, p, r);
    }
    assert Grows(l.log, after.log, p);
    OnePathIsEnough(l, after, p);
  }

  lemma ReinstateKeeps(l: Ledger, p: Path, i: nat)
    requires Kept(l) && p !in l.current && i < |HeldAt(l, p)|
    ensures var after := Reinstate(l, p, i);
            && Kept(after) && OnlyAt(l, after, p)
            && p in after.current && after.current[p].key == HeldAt(l, p)[i].key && after.current[p].outcome.None?
  {
    var after, queue := Reinstate(l, p, i), HeldAt(l, p);
    assert PathSound(l, p);
    assert queue[i] in queue;
    OneTaken(l.log, queue, i);
    assert Grows(l.log, after.log, p);
    forall r | r in HeldAt(after, p) ensures Genuine(after.log, p, r) {
      GenuineGrows(l.log, after.log, p, p, r);
    }
    assert Genuine(after.log, p, after.current[p]);
    OnePathIsEnough(l, after, p);
  }

  lemma OneTaken(log: Log, queue: seq<Record>, i: nat)
    requires AllApart(log, queue) && i < |queue|
    ensures var rest := queue[..i] + queue[i + 1..];
            && AllApart(log, rest) && forall r :: r in rest ==> r in queue && Apart(log, r, queue[i])
  {
    var rest := queue[..i] + queue[i + 1..];
    forall r | r in rest ensures r in queue && Apart(log, r, queue[i]) {
      var k :| 0 <= k < |rest| && rest[k] == r;
      assert r == queue[if k < i then k else k + 1];
    }
    forall j, k | 0 <= j < k < |rest| ensures Apart(log, rest[j], rest[k]) {
      assert rest[j] == queue[if j < i then j else j + 1] && rest[k] == queue[if k < i then k else k + 1];
    }
  }

  /** What a node shows, and was derived for, is no part of the ledger's own soundness. */
  lemma ShowingKeeps(l: Ledger, after: Ledger)
    requires Kept(l) && after.current == l.current && after.held == l.held && after.log == l.log
    ensures Kept(after)
  {
    forall p ensures PathSound(after, p) {
      assert PathSound(l, p);
    }
  }

  lemma ResumeKeeps(l: Ledger, p: Path, d: Demand, force: Option<nat>)
    requires Kept(l) && p !in l.current && d.Want?
    ensures var after := Resume(l, p, d, force);
            && Kept(after) && OnlyAt(l, after, p)
            && p in after.current && after.current[p].key == d.key && after.current[p].outcome.None?
            && after.nodes == l.nodes[p := Computing] && after.demand == l.demand
  {
    var queue := HeldAt(l, p);
    var i := FirstMatch(queue, d.key, force);
    if i < |queue| {
      ReinstateKeeps(l, p, i);
    } else {
      assert PathSound(l, p);
      forall r | r in queue && force.None? ensures r.key != d.key {
        var j :| 0 <= j < |queue| && queue[j] == r;
        assert !Matches(queue[j], d.key, force);
      }
      StartKeeps(l, p, d.key, d.scratch, force.Some?);
    }
  }

  ghost predicate OthersDisplay(l: Ledger, p: Path) {
    forall q :: q != p ==> Displays(l, q)
  }

  lemma StillDisplays(l: Ledger, after: Ledger, p: Path)
    requires OthersDisplay(l, p) && OnlyAt(l, after, p)
    requires forall q :: q != p ==> (q in l.nodes <==> q in after.nodes) && (q in l.demand <==> q in after.demand)
    requires forall q :: q != p && q in l.nodes ==> after.nodes[q] == l.nodes[q]
    requires forall q :: q != p && q in l.demand ==> after.demand[q] == l.demand[q]
    ensures OthersDisplay(after, p)
  {
    forall q | q != p ensures Displays(after, q) {
      assert Displays(l, q);
    }
  }

  /** What every other node shows, and was derived for, stays. */
  ghost predicate ShowsElsewhere(l: Ledger, after: Ledger, p: Path) {
    forall q :: q != p ==>
      && (q in l.nodes <==> q in after.nodes) && (q in l.demand <==> q in after.demand)
      && (q in l.nodes ==> after.nodes[q] == l.nodes[q]) && (q in l.demand ==> after.demand[q] == l.demand[q])
  }

  lemma OnlyAtTwice(l: Ledger, mid: Ledger, after: Ledger, p: Path)
    requires OnlyAt(l, mid, p) && OnlyAt(mid, after, p)
    ensures OnlyAt(l, after, p)
  {
    hide HeldAt;
  }

  /** What a derivation of one node makes of the ledger. */
  ghost predicate DerivedAt(l: Ledger, after: Ledger, p: Path, d: Demand) {
    && Kept(after) && OnlyAt(l, after, p) && ShowsElsewhere(l, after, p) && Displays(after, p) && p in after.nodes
    && (d.Unavailable? ==> after.nodes[p].Without? && p !in after.demand)
    && (d.Want? ==> !after.nodes[p].Without? && p in after.demand && after.demand[p] == d.key)
  }

  lemma DeriveAt(l: Ledger, p: Path, d: Demand, now: real)
    requires Kept(l)
    ensures DerivedAt(l, Derive(l, p, d, now), p, d)
  {
    hide *;
    if d.Unavailable? {
      var mid := Suspend(l, p, d.unresolved, now);
      SuspendKeeps(l, p, d.unresolved, now);
      SuspendShows(l, p, d.unresolved, now);
      SameElsewhere(l, mid, p);
      DroppedAt(mid, p, d);
      UnavailableIsDropped(l, p, d, now);
      DerivedFrom(l, mid, Derive(l, p, d, now), p, d);
    } else {
      WantAt(l, p, d, now);
    }
  }

  lemma SameElsewhere(l: Ledger, after: Ledger, p: Path)
    requires after.nodes == l.nodes && after.demand == l.demand
    ensures ShowsElsewhere(l, after, p)
  {
  }

  lemma UnavailableIsDropped(l: Ledger, p: Path, d: Demand, now: real)
    requires d.Unavailable?
    ensures var mid := Suspend(l, p, d.unresolved, now);
            Derive(l, p, d, now) == mid.(nodes := mid.nodes[p := Without], demand := mid.demand - {p})
  {
    hide Suspend;
  }

  lemma DroppedAt(l: Ledger, p: Path, d: Demand)
    requires Kept(l) && d.Unavailable? && p !in l.current
    ensures DerivedAt(l, l.(nodes := l.nodes[p := Without], demand := l.demand - {p}), p, d)
  {
    ShowingKeeps(l, l.(nodes := l.nodes[p := Without], demand := l.demand - {p}));
    hide Kept;
  }

  /** A derivation goes on from where only the node's own runs and demand have changed. */
  lemma DerivedFrom(l: Ledger, mid: Ledger, after: Ledger, p: Path, d: Demand)
    requires OnlyAt(l, mid, p) && ShowsElsewhere(l, mid, p) && DerivedAt(mid, after, p, d)
    ensures DerivedAt(l, after, p, d)
  {
    hide Kept, Displays;
    OnlyAtTwice(l, mid, after, p);
  }

  lemma WantAt(l: Ledger, p: Path, d: Demand, now: real)
    requires Kept(l) && d.Want?
    ensures DerivedAt(l, Derive(l, p, d, now), p, d)
  {
    var released := Release(l, p, d.key);
    var mid := released.(demand := released.demand[p := d.key]);
    ReleaseKeeps(l, p, d.key);
    ReleaseShows(l, p, d.key);
    ShowingKeeps(released, mid);
    hide Kept, Release, Suspend, Resume, DerivedAt;
    assert OnlyAt(l, mid, p) && ShowsElsewhere(l, mid, p);
    if p in l.current && l.current[p].key == d.key && !NeedsRerun(l.current[p], d) {
      PublishAt(mid, p, d);
    } else {
      AnewAt(mid, p, d, now, if p in l.current && l.current[p].key == d.key then Some(l.current[p].generation)
        else None);
    }
    DerivedFrom(l, mid, Derive(l, p, d, now), p, d);
  }

  lemma PublishAt(l: Ledger, p: Path, d: Demand)
    requires Kept(l) && d.Want? && p in l.demand && l.demand[p] == d.key && p in l.current && l.current[p].key == d.key
    ensures DerivedAt(l, Publish(l, p, l.current[p]), p, d)
  {
    ShowingKeeps(l, Publish(l, p, l.current[p]));
    hide Kept;
  }

  lemma AnewAt(l: Ledger, p: Path, d: Demand, now: real, force: Option<nat>)
    requires Kept(l) && d.Want? && p in l.demand && l.demand[p] == d.key
    ensures DerivedAt(l, Resume(Suspend(l, p, d.unresolved, now), p, d, force), p, d)
  {
    var mid := Suspend(l, p, d.unresolved, now);
    SuspendShows(l, p, d.unresolved, now);
    SuspendKeeps(l, p, d.unresolved, now);
    hide Suspend, Resume, Kept;
    ResumeKeeps(mid, p, d, force);
    OnlyAtTwice(l, mid, Resume(mid, p, d, force), p);
  }

  /** A derivation leaves the ledger sound, and its node showing its current run. */
  lemma DeriveKeeps(l: Ledger, p: Path, d: Demand, now: real)
    requires Kept(l) && OthersDisplay(l, p)
    ensures Sound(Derive(l, p, d, now))
  {
    DeriveAt(l, p, d, now);
    hide Derive, Kept, Displays;
    StillDisplays(l, Derive(l, p, d, now), p);
  }

  lemma ReleaseShows(l: Ledger, p: Path, key: Key)
    ensures Release(l, p, key).nodes == l.nodes && Release(l, p, key).demand == l.demand
    ensures Release(l, p, key).current == l.current
    ensures Release(l, p, key).log.launched == l.log.launched && Release(l, p, key).log.generation == l.log.generation
  {
  }

  lemma SuspendShows(l: Ledger, p: Path, unresolved: bool, now: real)
    ensures Suspend(l, p, unresolved, now).nodes == l.nodes && Suspend(l, p, unresolved, now).demand == l.demand
  {
  }

  // ----- completions -----

  lemma FilledIsGenuine(log: Log, after: Log, p: Path, r: Record, m: Completion)
    requires Books(log) && m in log.mail && m.path == p && Genuine(log, p, r)
    requires after == log || after == log.(mail := log.mail - {m})
    ensures Genuine(after, p, Filled(r, m.generation, m.outcome))
  {
  }

  lemma EnteredKeeps(l: Ledger, m: Completion, last: bool)
    requires Kept(l) && m in l.log.mail
    ensures Kept(Entered(if last then l.(log := l.log.(mail := l.log.mail - {m})) else l, m))
  {
    var taken := if last then l.(log := l.log.(mail := l.log.mail - {m})) else l;
    var after := Entered(taken, m);
    forall p ensures PathSound(after, p) {
      assert PathSound(l, p);
      EnteredAt(l, taken, m, p);
    }
  }

  lemma EnteredAt(l: Ledger, taken: Ledger, m: Completion, p: Path)
    requires Books(l.log) && PathSound(l, p) && m in l.log.mail
    requires taken == l || taken == l.(log := l.log.(mail := l.log.mail - {m}))
    ensures PathSound(Entered(taken, m), p)
  {
    var after, queue := Entered(taken, m), HeldAt(l, p);
    var filled := HeldAt(after, p);
    if p == m.path {
      forall i | 0 <= i < |queue| ensures filled[i] == Filled(queue[i], m.generation, m.outcome) && queue[i] in queue {
      }
      forall r | r in filled ensures Genuine(after.log, p, r) {
        var i :| 0 <= i < |filled| && filled[i] == r;
        FilledIsGenuine(l.log, taken.log, p, queue[i], m);
      }
      if p in l.current {
        FilledIsGenuine(l.log, taken.log, p, l.current[p], m);
      }
      forall i, j | 0 <= i < j < |filled| ensures Apart(after.log, filled[i], filled[j]) {
        assert Apart(l.log, queue[i], queue[j]);
      }
    } else {
      forall r | r in queue ensures Genuine(after.log, p, r) {
        assert Genuine(l.log, p, r);
      }
    }
  }

  lemma EnteredShows(l: Ledger, m: Completion)
    requires forall p :: Displays(l, p)
    ensures OthersDisplay(Entered(l, m), m.path)
  {
    forall p | p != m.path ensures Displays(Entered(l, m), p) {
      assert Displays(l, p);
    }
  }

  lemma MailShows(l: Ledger, m: Completion)
    requires forall p :: Displays(l, p)
    ensures forall p :: Displays(l.(log := l.log.(mail := l.log.mail - {m})), p)
  {
    forall p ensures Displays(l.(log := l.log.(mail := l.log.mail - {m})), p) {
      assert Displays(l, p);
    }
  }

  /** A completion of a run that is gone changes nothing but the mail. */
  lemma LateCompletionIsDropped(l: Ledger, m: Completion, last: bool, d: Demand, now: real)
    requires Sound(l) && m in l.log.mail && !Findable(l, m.path, m.generation)
    ensures Sound(Finish(l, m, last, d, now))
    ensures var after := Finish(l, m, last, d, now);
            && after.current == l.current && after.held == l.held && after.nodes == l.nodes
            && after.log.launched == l.log.launched && after.log.produced == l.log.produced
  {
    var after := Finish(l, m, last, d, now);
    forall p ensures PathSound(after, p) && Displays(after, p) {
      assert PathSound(l, p) && Displays(l, p);
      forall r | r in HeldAt(l, p) ensures Genuine(after.log, p, r) {
        assert Genuine(l.log, p, r) && Names(r, r.generation);
      }
    }
  }

  lemma FinishKeeps(l: Ledger, m: Completion, last: bool, d: Demand, now: real)
    requires Sound(l) && m in l.log.mail
    ensures Sound(Finish(l, m, last, d, now))
  {
    hide PathSound, Displays, Derive;
    if Findable(l, m.path, m.generation) {
      var taken := if last then l.(log := l.log.(mail := l.log.mail - {m})) else l;
      EnteredKeeps(l, m, last);
      MailShows(l, m);
      EnteredShows(taken, m);
      DeriveKeeps(Entered(taken, m), m.path, d, now);
    } else {
      LateCompletionIsDropped(l, m, last, d, now);
    }
  }

  // ----- housekeeping -----

  lemma {:induction false} UnexpiredIsApart(log: Log, queue: seq<Record>, g: nat, now: real)
    requires AllApart(log, queue)
    ensures AllApart(log, Unexpired(queue, g, now)) && |Unexpired(queue, g, now)| <= |queue|
    ensures forall r :: r in Unexpired(queue, g, now) <==> r in queue && !Expires(r, g, now)
  {
    if queue != [] {
      UnexpiredIsApart(log, queue[1..], g, now);
      var rest, whole := Unexpired(queue[1..], g, now), Unexpired(queue, g, now);
      forall i, j | 0 <= i < j < |whole| ensures Apart(log, whole[i], whole[j]) {
        if !Expires(queue[0], g, now) && i == 0 {
          assert whole[j] == rest[j - 1] && rest[j - 1] in rest;
          var k :| 0 <= k < |queue| - 1 && queue[1..][k] == rest[j - 1];
          assert queue[k + 1] == rest[j - 1];
        }
      }
    }
  }

  lemma ExpireKeeps(l: Ledger, p: Path, g: nat, now: real)
    requires Kept(l)
    ensures var after := Expire(l, p, g, now);
            Kept(after) && OnlyAt(l, after, p) && after.current == l.current
  {
    if p in l.held {
      var after, queue := Expire(l, p, g, now), l.held[p];
      assert PathSound(l, p);
      UnexpiredIsApart(l.log, queue, g, now);
      var gone := set r | r in queue && Expires(r, g, now) :: r.generation;
      forall x | x in gone ensures x in l.log.launched && l.log.launched[x].path == p {
        var r :| r in queue && r.generation == x;
        assert Genuine(l.log, p, r);
      }
      assert Books(after.log) && Grows(l.log, after.log, p);
      forall r | r in HeldAt(after, p) ensures Genuine(after.log, p, r) {
        if r.generation in gone {
          var s :| s in queue && Expires(s, g, now) && s.generation == r.generation;
          SameGeneration(l.log, queue, r, s);
        }
      }
      OnePathIsEnough(l, after, p);
    }
  }

  lemma PruneKeeps(l: Ledger, paths: set<Path>)
    requires Kept(l)
    ensures Kept(Prune(l, paths)) && Prune(l, paths).current == l.current
  {
    var after := Prune(l, paths);
    var gone := set p, r | p in paths && p in l.held && r in l.held[p] :: r.generation;
    forall x | x in gone ensures x in l.log.launched && l.log.launched[x].path in paths {
      var p, r :| p in paths && p in l.held && r in l.held[p] && r.generation == x;
      assert PathSound(l, p) && r in HeldAt(l, p) && Genuine(l.log, p, r);
    }
    forall q ensures PathSound(after, q) {
      assert PathSound(l, q);
      if q in l.current && l.current[q].generation in gone {
        var p, r :| p in paths && p in l.held && r in l.held[p] && r.generation == l.current[q].generation;
        assert PathSound(l, p) && r in HeldAt(l, p) && Genuine(l.log, p, r);
        assert Apart(l.log, r, l.current[q]);
      }
      if q !in paths {
        forall r | r in HeldAt(after, q) ensures Genuine(after.log, q, r) {
          assert r in HeldAt(l, q) && Genuine(l.log, q, r);
        }
      }
    }
  }

  lemma WithoutRunKeeps(l: Ledger, p: Path)
    requires Kept(l)
    ensures Kept(WithoutRun(l, p)) && OnlyAt(l, WithoutRun(l, p), p)
  {
    if p in l.current {
      var after := WithoutRun(l, p);
      assert PathSound(l, p);
      forall r | r in HeldAt(after, p) ensures Genuine(after.log, p, r) {
        assert Apart(l.log, r, l.current[p]);
      }
      assert Grows(l.log, after.log, p);
      OnePathIsEnough(l, after, p);
    }
  }

  lemma DeleteKeeps(l: Ledger, p: Path)
    requires Sound(l)
    ensures Sound(Delete(l, p))
  {
    var bare := WithoutRun(l, p);
    var pruned := Prune(bare, {p});
    hide PathSound;
    WithoutRunKeeps(l, p);
    PruneKeeps(bare, {p});
    ShowingKeeps(pruned, Delete(l, p));
    forall q ensures Displays(Delete(l, p), q) {
      assert Displays(l, q);
    }
  }

  lemma ReplaceKeeps(l: Ledger)
    requires Sound(l)
    ensures Sound(Replace(l))
  {
    forall p ensures PathSound(Replace(l), p) {
    }
  }

  lemma EndedKeeps(l: Ledger, g: nat, o: Outcome)
    requires Sound(l) && Possible(l, Ended(g, o))
    ensures Sound(Next(l, Ended(g, o)))
  {
    var after := Next(l, Ended(g, o));
    forall p ensures PathSound(after, p) && Displays(after, p) {
      assert PathSound(l, p) && Displays(l, p);
      forall r | r in HeldAt(l, p) ensures Genuine(after.log, p, r) {
        assert Genuine(l.log, p, r);
      }
    }
  }

  lemma DiedKeeps(l: Ledger, g: nat)
    requires Sound(l) && Possible(l, Died(g))
    ensures Sound(Next(l, Died(g)))
  {
    var after := Next(l, Died(g));
    forall p ensures PathSound(after, p) && Displays(after, p) {
      assert PathSound(l, p) && Displays(l, p);
      forall r | r in HeldAt(l, p) ensures Genuine(after.log, p, r) {
        assert Genuine(l.log, p, r);
      }
    }
  }

  lemma ElsewhereKeeps(l: Ledger)
    requires Sound(l)
    ensures Sound(Next(l, Elsewhere))
  {
    var after := Next(l, Elsewhere);
    forall p ensures PathSound(after, p) && Displays(after, p) {
      assert PathSound(l, p) && Displays(l, p);
      forall r | r in HeldAt(l, p) ensures Genuine(after.log, p, r) {
        assert Genuine(l.log, p, r);
      }
    }
  }

  lemma NextKeeps(l: Ledger, e: Event)
    requires Sound(l) && Possible(l, e)
    ensures Sound(Next(l, e))
  {
    hide PathSound, Displays;
    match e {
      case Derived(p, d, now) =>
        assert OthersDisplay(l, p);
        DeriveKeeps(l, p, d, now);
      case Ended(g, o) => EndedKeeps(l, g, o);
      case Died(g) => DiedKeeps(l, g);
      case Finished(m, last, d, now) => FinishKeeps(l, m, last, d, now);
      case Expired(p, g, now) => ExpireShows(l, p, g, now);
      case Pruned(paths) => PruneShows(l, paths);
      case Deleted(p) => DeleteKeeps(l, p);
      case Replaced => ReplaceKeeps(l);
      case Cleared(p, d, now) => ClearKeeps(l, p, d, now);
      case Elsewhere => ElsewhereKeeps(l);
    }
  }

  lemma ExpireShows(l: Ledger, p: Path, g: nat, now: real)
    requires Sound(l)
    ensures Sound(Expire(l, p, g, now))
  {
    ExpireKeeps(l, p, g, now);
    forall q ensures Displays(Expire(l, p, g, now), q) {
      assert Displays(l, q);
    }
  }

  lemma PruneShows(l: Ledger, paths: set<Path>)
    requires Sound(l)
    ensures Sound(Prune(l, paths))
  {
    PruneKeeps(l, paths);
    forall q ensures Displays(Prune(l, paths), q) {
      assert Displays(l, q);
    }
  }

  lemma ClearKeeps(l: Ledger, p: Path, d: Demand, now: real)
    requires Sound(l)
    ensures Sound(Derive(WithoutRun(l, p), p, d, now))
  {
    hide PathSound;
    WithoutRunKeeps(l, p);
    assert OthersDisplay(l, p);
    StillDisplays(l, WithoutRun(l, p), p);
    DeriveKeeps(WithoutRun(l, p), p, d, now);
  }

  // ----- every run of the ledger -----

  ghost predicate Plays(l: Ledger, events: seq<Event>)
    decreases |events|
  {
    events == [] || (Possible(l, events[0]) && Plays(Next(l, events[0]), events[1..]))
  }

  function Played(l: Ledger, events: seq<Event>): Ledger
    requires Plays(l, events)
    decreases |events|
  {
    if events == [] then l else Played(Next(l, events[0]), events[1..])
  }

  lemma {:induction false} EveryRunIsSound(l: Ledger, events: seq<Event>)
    requires Sound(l) && Plays(l, events)
    ensures Sound(Played(l, events))
    decreases |events|
  {
    if events != [] {
      NextKeeps(l, events[0]);
      EveryRunIsSound(Next(l, events[0]), events[1..]);
    }
  }

  /** Over every interleaving of derivations, completions (late and repeated ones too), expiry,
      pruning, deletion and graph replacement: what a node shows is what the execution produced
      that was launched for the very key the node was last derived for. */
  lemma ShownIsWhatWasLaunched(events: seq<Event>, p: Path)
    requires Plays(EMPTY, events)
    requires var l := Played(EMPTY, events); p in l.nodes && l.nodes[p].Shows?
    ensures var l := Played(EMPTY, events);
            && p in l.current && p in l.demand
            && var g := l.current[p].generation;
               && g in l.log.launched && l.log.launched[g] == Launch(p, l.demand[p])
               && g in l.log.produced && l.log.produced[g] == l.nodes[p].outcome
  {
    EveryRunIsSound(EMPTY, events);
    var l := Played(EMPTY, events);
    assert PathSound(l, p) && Displays(l, p);
  }

  /** A node never computes in vain: the execution for its key runs on, unasked to stop, or its
      completion is on its way. */
  lemma ComputingIsUnderWay(events: seq<Event>, p: Path)
    requires Plays(EMPTY, events)
    requires var l := Played(EMPTY, events); p in l.nodes && l.nodes[p].Computing?
    ensures var l := Played(EMPTY, events);
            && p in l.current && p in l.demand
            && var g := l.current[p].generation;
               && g in l.log.launched && l.log.launched[g] == Launch(p, l.demand[p]) && g !in l.log.stopped
               && (g in l.log.running || (g in l.log.produced && Completion(p, g, l.log.produced[g]) in l.log.mail))
  {
    EveryRunIsSound(EMPTY, events);
    var l := Played(EMPTY, events);
    assert PathSound(l, p) && Displays(l, p);
  }

  ghost predicate InLedger(l: Ledger, p: Path, r: Record) {
    r in HeldAt(l, p) || (p in l.current && r == l.current[p])
  }

  /** At most three runs are held at a path; no two runs in the ledger share a generation, at one
      path or at two; and two runs of a path are for the same key only if the later was forced. */
  lemma RunsAreApart(events: seq<Event>, p: Path)
    requires Plays(EMPTY, events)
    ensures var l := Played(EMPTY, events);
            && (forall q, r, s :: q != p && InLedger(l, p, r) && InLedger(l, q, s) ==> r.generation != s.generation)
            && |HeldAt(l, p)| <= CAP
            && (forall i, j :: 0 <= i < j < |HeldAt(l, p)| ==> Apart(l.log, HeldAt(l, p)[i], HeldAt(l, p)[j]))
            && (p in l.current ==> forall r :: r in HeldAt(l, p) ==> Apart(l.log, r, l.current[p]))
  {
    EveryRunIsSound(EMPTY, events);
    var l := Played(EMPTY, events);
    assert PathSound(l, p);
    forall q, r, s | q != p && InLedger(l, p, r) && InLedger(l, q, s) ensures r.generation != s.generation {
      assert PathSound(l, q);
      assert Genuine(l.log, p, r) && Genuine(l.log, q, s);
    }
  }

  /** A launch takes a generation no run ever had, over every step and across graphs. */
  lemma GenerationsAreFresh(events: seq<Event>, e: Event)
    requires Plays(EMPTY, events) && Possible(Played(EMPTY, events), e)
    ensures var l := Played(EMPTY, events);
            forall g :: g in Next(l, e).log.launched && g !in l.log.launched ==>
              g > l.log.generation && forall h :: h in l.log.launched ==> h < g
  {
    EveryRunIsSound(EMPTY, events);
    var l := Played(EMPTY, events);
    assert Books(l.log);
    hide Next, PathSound;
    LaunchesOnlyAbove(l, e);
  }

  lemma DeriveLaunchesAbove(l: Ledger, p: Path, d: Demand, now: real)
    ensures forall g :: g in Derive(l, p, d, now).log.launched ==> g in l.log.launched || g == l.log.generation + 1
  {
    SuspendLaunches(l, p, d.unresolved, now);
    if d.Want? {
      var released := Release(l, p, d.key).(demand := l.demand[p := d.key]);
      ReleaseShows(l, p, d.key);
      SuspendLaunches(released, p, d.unresolved, now);
      hide Release, Suspend, Resume, Publish, NeedsRerun;
      ResumeLaunches(Suspend(released, p, d.unresolved, now), p, d, if p in l.current && l.current[p].key == d.key then
        Some(l.current[p].generation) else None);
      PublishLaunches(released, p);
    }
  }

  lemma SuspendLaunches(l: Ledger, p: Path, unresolved: bool, now: real)
    ensures Suspend(l, p, unresolved, now).log.launched == l.log.launched
    ensures Suspend(l, p, unresolved, now).log.generation == l.log.generation
  {
  }

  lemma PublishLaunches(l: Ledger, p: Path)
    ensures p in l.current ==> Publish(l, p, l.current[p]).log == l.log
  {
  }

  lemma ResumeLaunches(l: Ledger, p: Path, d: Demand, force: Option<nat>)
    requires d.Want?
    ensures forall g :: g in Resume(l, p, d, force).log.launched ==> g in l.log.launched || g == l.log.generation + 1
  {
  }

  lemma LaunchesOnlyAbove(l: Ledger, e: Event)
    requires Possible(l, e)
    ensures forall g :: g in Next(l, e).log.launched ==> g in l.log.launched || g == l.log.generation + 1
  {
    hide Derive;
    match e {
      case Derived(p, d, now) => DeriveLaunchesAbove(l, p, d, now);
      case Cleared(p, d, now) => DeriveLaunchesAbove(WithoutRun(l, p), p, d, now);
      case Finished(m, last, d, now) =>
        var taken := if last then l.(log := l.log.(mail := l.log.mail - {m})) else l;
        DeriveLaunchesAbove(Entered(taken, m), m.path, d, now);
      case _ =>
    }
  }

  /** The held runs that stay when the key is wanted. The first of them goes for the cap if there
      are as many as it allows and the current run joins them. */
  function Remaining(l: Ledger, p: Path, key: Key): seq<Record> {
    var staying := Staying(HeldAt(l, p), key);
    if p in l.current && |staying| == CAP then staying[1..] else staying
  }

  /** A run for the key is current and need not be made again, or is held and remains so. */
  predicate Reuses(l: Ledger, p: Path, d: Demand)
    requires d.Want?
  {
    || (p in l.current && l.current[p].key == d.key && !NeedsRerun(l.current[p], d))
    || exists r :: r in Remaining(l, p, d.key) && r.key == d.key
  }

  /** Deriving a key launches a run exactly if none can be used again: going back to a key whose
      run is held launches nothing, unless the queue is full and that run is the one that goes. */
  lemma LaunchesIff(l: Ledger, p: Path, d: Demand, now: real)
    requires Sound(l) && d.Want?
    ensures var after := Derive(l, p, d, now);
            && (after.log.launched == l.log.launched <==> Reuses(l, p, d))
            && p in after.current && after.current[p].key == d.key
            && (!Reuses(l, p, d) ==>
                  after.log.launched == l.log.launched[l.log.generation + 1 := Launch(p, d.key)])
  {
    var released := Release(l, p, d.key).(demand := l.demand[p := d.key]);
    ReleaseKeeps(l, p, d.key);
    ReleaseShows(l, p, d.key);
    ShowingKeeps(Release(l, p, d.key), released);
    assert PathSound(released, p) && Books(released.log);
    assert HeldAt(released, p) == Staying(HeldAt(l, p), d.key);
    var again := p in l.current && l.current[p].key == d.key;
    if !(again && !NeedsRerun(l.current[p], d)) {
      hide Release, Sound, Kept, Staying, Resume, Suspend;
      ResumesIff(released, p, d, now, if again then Some(l.current[p].generation) else None);
    }
  }

  lemma ResumesIff(l: Ledger, p: Path, d: Demand, now: real, force: Option<nat>)
    requires PathSound(l, p) && Books(l.log) && d.Want?
    requires force == if p in l.current && l.current[p].key == d.key then Some(l.current[p].generation) else None
    ensures var after := Resume(Suspend(l, p, d.unresolved, now), p, d, force);
            var left := if p in l.current && |HeldAt(l, p)| == CAP then HeldAt(l, p)[1..] else HeldAt(l, p);
            && p in after.current && after.current[p].key == d.key
            && (if exists r :: r in left && r.key == d.key then after.log.launched == l.log.launched
                else l.log.generation + 1 !in l.log.launched
                     && after.log.launched == l.log.launched[l.log.generation + 1 := Launch(p, d.key)])
  {
    LeftInQueue(l, p, d.unresolved, now);
    LeftMatches(l, p, d, now, force);
    ResumeShape(Suspend(l, p, d.unresolved, now), p, d, force);
    assert l.log.generation + 1 !in l.log.launched;
    hide Suspend, Resume, FirstMatch, Books, PathSound;
  }

  /** One of the runs left is found, or none has the key. */
  lemma LeftMatches(l: Ledger, p: Path, d: Demand, now: real, force: Option<nat>)
    requires PathSound(l, p) && d.Want?
    requires force == if p in l.current && l.current[p].key == d.key then Some(l.current[p].generation) else None
    ensures var queue := HeldAt(Suspend(l, p, d.unresolved, now), p);
            var left := if p in l.current && |HeldAt(l, p)| == CAP then HeldAt(l, p)[1..] else HeldAt(l, p);
            FirstMatch(queue, d.key, force) < |queue| <==> exists r :: r in left && r.key == d.key
  {
    var queue := HeldAt(Suspend(l, p, d.unresolved, now), p);
    var left := if p in l.current && |HeldAt(l, p)| == CAP then HeldAt(l, p)[1..] else HeldAt(l, p);
    LeftInQueue(l, p, d.unresolved, now);
    assert forall r :: r in left ==> r in HeldAt(l, p) && Genuine(l.log, p, r);
    assert p in l.current ==> forall r :: r in left ==> r.generation != l.current[p].generation;
    hide Suspend, PathSound, Genuine, Apart, FirstMatch;
    var i := FirstMatch(queue, d.key, force);
    if r :| r in left && r.key == d.key {
      assert r in queue;
      var j :| 0 <= j < |queue| && queue[j] == r;
    }
    if i < |queue| {
      assert queue[i] in queue;
    }
  }

  lemma ResumeShape(l: Ledger, p: Path, d: Demand, force: Option<nat>)
    requires d.Want?
    ensures var after, queue := Resume(l, p, d, force), HeldAt(l, p);
            && p in after.current && after.current[p].key == d.key
            && after.log.launched ==
                 if FirstMatch(queue, d.key, force) < |queue| then l.log.launched
                 else l.log.launched[l.log.generation + 1 := Launch(p, d.key)]
  {
  }

  /** The queue once the current run has joined it. */
  lemma LeftInQueue(l: Ledger, p: Path, unresolved: bool, now: real)
    requires |HeldAt(l, p)| <= CAP
    ensures var mid := Suspend(l, p, unresolved, now);
            var left := if p in l.current && |HeldAt(l, p)| == CAP then HeldAt(l, p)[1..] else HeldAt(l, p);
            && mid.log.launched == l.log.launched && mid.log.generation == l.log.generation
            && (forall r :: r in left ==> r in HeldAt(mid, p))
            && (forall r :: r in HeldAt(mid, p) ==>
                  r in left || (p in l.current && r == Suspended(l.current[p], unresolved, now)))
  {
    if p in l.current {
      var last := Suspended(l.current[p], unresolved, now);
      var queue := HeldAt(l, p) + [last];
      if |HeldAt(l, p)| == CAP {
        assert Newest(queue) == HeldAt(l, p)[1..] + [last];
      }
    }
  }

  // ----- the object -----

  lemma Regroup(a: seq<Record>, b: seq<Record>, c: seq<Record>)
    ensures a + (b + c) == (a + b) + c
  {
  }

  method KeepStaying(all: seq<Record>, key: Key) returns (kept: seq<Record>)
    ensures kept == Staying(all, key)
  {
    kept := [];
    for i := 0 to |all|
      invariant kept + Staying(all[i..], key) == Staying(all, key)
    {
      var r := all[i];
      var one := if r.hold != Upstream || r.phase == Cancelled || r.key == key then [r] else [];
      assert all[i..][0] == r && all[i..][1..] == all[i + 1..];
      Regroup(kept, one, Staying(all[i + 1..], key));
      kept := kept + one;
    }
    assert all[|all|..] == [];
  }

  method KeepUnexpired(all: seq<Record>, g: nat, now: real) returns (kept: seq<Record>)
    ensures kept == Unexpired(all, g, now)
  {
    kept := [];
    for i := 0 to |all|
      invariant kept + Unexpired(all[i..], g, now) == Unexpired(all, g, now)
    {
      var r := all[i];
      var one := if r.generation == g && r.deadline <= now then [] else [r];
      assert all[i..][0] == r && all[i..][1..] == all[i + 1..];
      Regroup(kept, one, Unexpired(all[i + 1..], g, now));
      kept := kept + one;
    }
    assert all[|all|..] == [];
  }

  class ContextRuntime {
    var current: map<Path, Record>
    var held: map<Path, seq<Record>>
    var generation: nat
    var nodes: map<Path, Node>
    var notes: seq<Completion>
    ghost var demand: map<Path, Key>
    ghost var log: Log

    ghost function View(): Ledger reads this {
      Ledger(current, held, nodes, demand, log)
    }

    ghost predicate Valid() reads this {
      Sound(View()) && log.generation == generation
    }

    constructor ()
      ensures View() == EMPTY && Valid()
    {
      current, held, generation, nodes, notes := map[], map[], 0, map[], [];
      demand, log := map[], EMPTY.log;
    }

    /** The current run joins the held ones; beyond the cap the oldest are evicted. */
    method Supersede(p: Path, unresolved: bool, now: real)
      modifies this
      ensures View() == Suspend(old(View()), p, unresolved, now) && generation == old(generation)
    {
      if p !in current {
        return;
      }
      var run := current[p];
      current := current - {p};
      ghost var whole := (if p in held then held[p] else []) + [Suspended(run, unresolved, now)];
      var queue := (if p in held then held[p] else []) + [Suspended(run, unresolved, now)];
      var evicted: seq<Record> := [];
      while |queue| > CAP
        invariant evicted + queue == whole && (evicted != [] ==> |queue| >= CAP)
      {
        evicted := evicted + [queue[0]];
        queue := queue[1..];
      }
      assert queue == Newest(whole) && evicted == Oldest(whole);
      held := held[p := queue];
      log := Stop(log, Generations(evicted));
    }

    method ReleaseUpstreamHolds(p: Path, key: Key)
      modifies this
      ensures View() == Release(old(View()), p, key) && generation == old(generation)
    {
      if p !in held {
        return;
      }
      var all := held[p];
      var kept := KeepStaying(all, key);
      log := Stop(log, Leaving(all, key));
      held := held[p := kept];
    }

    /** The first held run for the key that may come back. */
    method Look(p: Path, key: Key, skip: Option<nat>) returns (i: nat)
      ensures i == FirstMatch(HeldAt(View(), p), key, skip)
    {
      var queue := if p in held then held[p] else [];
      i := 0;
      while i < |queue| && !Matches(queue[i], key, skip)
        invariant i <= |queue| && FirstMatch(queue, key, skip) == i + FirstMatch(queue[i..], key, skip)
      {
        assert queue[i..][0] == queue[i] && queue[i..][1..] == queue[i + 1..];
        i := i + 1;
      }
      if i < |queue| {
        assert queue[i..][0] == queue[i];
      } else {
        assert queue[i..] == [];
      }
    }

    method Resumed(p: Path, d: Demand, force: Option<nat>)
      requires d.Want? && log.generation == generation
      modifies this
      ensures View() == Resume(old(View()), p, d, force) && log.generation == generation
    {
      var queue := if p in held then held[p] else [];
      var i := Look(p, d.key, force);
      nodes := nodes[p := Computing];
      if i < |queue| {
        var back := queue[i];
        held := held[p := queue[..i] + queue[i + 1..]];
        if back.outcome.Some? {
          var note := Completion(p, back.generation, back.outcome.value);
          notes := notes + [note];
          log := Posted(log, note);
        }
        current := current[p := back.(outcome := None, phase := Running, hold := Unheld)];
      } else {
        generation := generation + 1;
        log := Launched(log, p, d.key, force.Some?);
        current := current[p := Record(generation, d.key, None, Running, Unheld, 0.0, d.scratch)];
      }
    }

    /** Brings a transformer's run in line with what its inputs now demand. */
    method DeriveTransformer(p: Path, d: Demand, now: real)
      requires Kept(View()) && OthersDisplay(View(), p) && log.generation == generation
      modifies this
      ensures View() == Derive(old(View()), p, d, now) && Valid()
    {
      DeriveKeeps(View(), p, d, now);
      hide Sound, Kept, OthersDisplay;
      if d.Unavailable? {
        Supersede(p, d.unresolved, now);
        SuspendLaunches(old(View()), p, d.unresolved, now);
        nodes := nodes[p := Without];
        demand := demand - {p};
        return;
      }
      ReleaseUpstreamHolds(p, d.key);
      ReleaseShows(old(View()), p, d.key);
      demand := demand[p := d.key];
      var force := None;
      if p in current && current[p].key == d.key {
        if !NeedsRerun(current[p], d) {
          nodes := nodes[p := if current[p].outcome.Some? then Shows(current[p].outcome.value) else Computing];
          return;
        }
        force := Some(current[p].generation);
      }
      ghost var mid := View();
      Supersede(p, d.unresolved, now);
      SuspendLaunches(mid, p, d.unresolved, now);
      Resumed(p, d, force);
    }

    /** A completion comes in; it may belong to no run any more. */
    method TransformationFinished(m: Completion, ghost last: bool, d: Demand, now: real)
      requires Valid() && m in log.mail
      modifies this
      ensures View() == Finish(old(View()), m, last, d, now) && Valid()
    {
      FinishKeeps(View(), m, last, d, now);
      ghost var was := View();
      if last {
        log := log.(mail := log.mail - {m});
      }
      var found := FindRun(m.path, m.generation);
      if found {
        EnteredKeeps(was, m, last);
        MailShows(was, m);
        EnteredShows(View(), m);
        if m.path in current {
          current := current[m.path := Filled(current[m.path], m.generation, m.outcome)];
        }
        if m.path in held {
          held := held[m.path := FillAll(held[m.path], m.generation, m.outcome)];
        }
        DeriveTransformer(m.path, d, now);
      }
    }

    method FindRun(p: Path, g: nat) returns (found: bool)
      ensures found == Findable(View(), p, g)
    {
      if p in current && current[p].generation == g {
        return true;
      }
      var queue := if p in held then held[p] else [];
      for i := 0 to |queue|
        invariant forall j :: 0 <= j < i ==> !Names(queue[j], g)
      {
        if Names(queue[i], g) {
          return true;
        }
      }
      return false;
    }

    method ExpireRun(p: Path, g: nat, now: real)
      requires Valid()
      modifies this
      ensures View() == Expire(old(View()), p, g, now) && Valid()
    {
      ExpireShows(View(), p, g, now);
      if p !in held {
        return;
      }
      var all := held[p];
      var kept := KeepUnexpired(all, g, now);
      log := Stop(log, set r | r in all && Expires(r, g, now) :: r.generation);
      held := held[p := kept];
    }

    method PruneHeld(paths: set<Path>)
      requires Valid()
      modifies this
      ensures View() == Prune(old(View()), paths) && Valid()
    {
      PruneShows(View(), paths);
      log := Prune(View(), paths).log;
      held := held - paths;
    }

    /** The node is gone, with every run of it. */
    method DeleteNode(p: Path)
      requires Valid()
      modifies this
      ensures View() == Delete(old(View()), p) && Valid()
    {
      DeleteKeeps(View(), p);
      log := Delete(View(), p).log;
      current, held, nodes, demand := current - {p}, held - {p}, nodes - {p}, demand - {p};
    }
  }
}
