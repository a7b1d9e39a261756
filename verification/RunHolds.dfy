/** How long a superseded run can come back. It is told by what superseded it and by what came after,
    not by what the ledger noted about it. */
module RunHolds {
  import opened Wrappers
  import opened RunLedger

  // ----- a run that is held -----

  /** The run is held at the path, for this deadline, with at most `behind` runs after it in the queue. */
  ghost predicate HeldBack(l: Ledger, p: Path, g: nat, key: Key, hold: Hold, deadline: real, behind: nat) {
    exists i :: 0 <= i < |HeldAt(l, p)| && Waits(HeldAt(l, p)[i], g, key, hold, deadline)
      && |HeldAt(l, p)| - 1 - i <= behind
  }

  predicate Waits(r: Record, g: nat, key: Key, hold: Hold, deadline: real) {
    r.generation == g && r.key == key && r.hold == hold && r.deadline == deadline && r.phase == Superseded
  }

  /** The place of a run in a queue, from the back. */
  ghost predicate InQueue(queue: seq<Record>, g: nat, key: Key, hold: Hold, deadline: real, behind: nat) {
    exists i :: 0 <= i < |queue| && Waits(queue[i], g, key, hold, deadline) && |queue| - 1 - i <= behind
  }

  lemma HeldIsInQueue(l: Ledger, p: Path, g: nat, key: Key, hold: Hold, deadline: real, behind: nat)
    ensures HeldBack(l, p, g, key, hold, deadline, behind) <==>
      InQueue(HeldAt(l, p), g, key, hold, deadline, behind)
  {
  }

  lemma {:induction false} StayingKeepsPlace(queue: seq<Record>, wanted: Key, g: nat, key: Key, hold: Hold,
      deadline: real, behind: nat)
    requires InQueue(queue, g, key, hold, deadline, behind) && (hold != Upstream || key == wanted)
    ensures InQueue(Staying(queue, wanted), g, key, hold, deadline, behind)
    decreases |queue|
  {
    var i :| 0 <= i < |queue| && Waits(queue[i], g, key, hold, deadline) && |queue| - 1 - i <= behind;
    StayingIsShorter(queue[1..], wanted);
    if i == 0 {
      assert Staying(queue, wanted)[0] == queue[0];
    } else {
      assert queue[1..][i - 1] == queue[i];
      StayingKeepsPlace(queue[1..], wanted, g, key, hold, deadline, behind);
      var rest, all := Staying(queue[1..], wanted), Staying(queue, wanted);
      var j :| 0 <= j < |rest| && Waits(rest[j], g, key, hold, deadline) && |rest| - 1 - j <= behind;
      assert all[j + |all| - |rest|] == rest[j];
    }
  }

  lemma {:induction false} StayingIsShorter(queue: seq<Record>, wanted: Key)
    ensures |Staying(queue, wanted)| <= |queue|
  {
    if queue != [] {
      StayingIsShorter(queue[1..], wanted);
    }
  }

  lemma {:induction false} UnexpiredKeepsPlace(queue: seq<Record>, h: nat, now: real, g: nat, key: Key, hold: Hold,
      deadline: real, behind: nat)
    requires InQueue(queue, g, key, hold, deadline, behind) && !(h == g && deadline <= now)
    ensures InQueue(Unexpired(queue, h, now), g, key, hold, deadline, behind)
    decreases |queue|
  {
    var i :| 0 <= i < |queue| && Waits(queue[i], g, key, hold, deadline) && |queue| - 1 - i <= behind;
    UnexpiredIsShorter(queue[1..], h, now);
    if i == 0 {
      assert Unexpired(queue, h, now)[0] == queue[0];
    } else {
      assert queue[1..][i - 1] == queue[i];
      UnexpiredKeepsPlace(queue[1..], h, now, g, key, hold, deadline, behind);
      var rest, all := Unexpired(queue[1..], h, now), Unexpired(queue, h, now);
      var j :| 0 <= j < |rest| && Waits(rest[j], g, key, hold, deadline) && |rest| - 1 - j <= behind;
      assert all[j + |all| - |rest|] == rest[j];
    }
  }

  lemma {:induction false} UnexpiredIsShorter(queue: seq<Record>, h: nat, now: real)
    ensures |Unexpired(queue, h, now)| <= |queue|
  {
    if queue != [] {
      UnexpiredIsShorter(queue[1..], h, now);
    }
  }

  // ----- each operation on the queue -----

  lemma ReleaseKeepsPlace(l: Ledger, p: Path, wanted: Key, g: nat, key: Key, hold: Hold, deadline: real, behind: nat)
    requires HeldBack(l, p, g, key, hold, deadline, behind) && (hold != Upstream || key == wanted)
    ensures HeldBack(Release(l, p, wanted), p, g, key, hold, deadline, behind)
  {
    HeldIsInQueue(l, p, g, key, hold, deadline, behind);
    StayingKeepsPlace(HeldAt(l, p), wanted, g, key, hold, deadline, behind);
    HeldIsInQueue(Release(l, p, wanted), p, g, key, hold, deadline, behind);
    hide InQueue, HeldBack;
  }

  /** A run more behind it leaves the run where it is, unless there are three by then. */
  lemma SuspendKeepsPlace(l: Ledger, p: Path, unresolved: bool, now: real, g: nat, key: Key, hold: Hold, deadline: real,
      behind: nat)
    requires HeldBack(l, p, g, key, hold, deadline, behind)
    requires p in l.current ==> behind + 1 < CAP
    ensures HeldBack(Suspend(l, p, unresolved, now), p, g, key, hold, deadline,
        behind + if p in l.current then 1 else 0)
  {
    if p in l.current {
      var back := Suspended(l.current[p], unresolved, now);
      var queue := HeldAt(l, p) + [back];
      HeldIsInQueue(l, p, g, key, hold, deadline, behind);
      assert HeldAt(Suspend(l, p, unresolved, now), p) == Newest(queue);
      HeldIsInQueue(Suspend(l, p, unresolved, now), p, g, key, hold, deadline, behind + 1);
      hide HeldBack, HeldAt, Suspend, InQueue;
      OneMoreBehind(HeldAt(l, p), back, g, key, hold, deadline, behind);
    }
  }

  lemma OneMoreBehind(queue: seq<Record>, back: Record, g: nat, key: Key, hold: Hold, deadline: real, behind: nat)
    requires InQueue(queue, g, key, hold, deadline, behind) && behind + 1 < CAP
    ensures InQueue(Newest(queue + [back]), g, key, hold, deadline, behind + 1)
  {
    var i :| 0 <= i < |queue| && Waits(queue[i], g, key, hold, deadline) && |queue| - 1 - i <= behind;
    var newest := Newest(queue + [back]);
    var cut := |queue| + 1 - |newest|;
    assert newest == (queue + [back])[cut..];
    assert newest[i - cut] == queue[i];
    hide Waits;
  }

  lemma ResumeKeepsPlace(l: Ledger, p: Path, d: Demand, force: Option<nat>, g: nat, key: Key, hold: Hold,
      deadline: real, behind: nat)
    requires d.Want? && d.key != key && HeldBack(l, p, g, key, hold, deadline, behind)
    ensures HeldBack(Resume(l, p, d, force), p, g, key, hold, deadline, behind)
  {
    var queue := HeldAt(l, p);
    var m := FirstMatch(queue, d.key, force);
    HeldIsInQueue(l, p, g, key, hold, deadline, behind);
    HeldIsInQueue(Resume(l, p, d, force), p, g, key, hold, deadline, behind);
    assert HeldAt(Resume(l, p, d, force), p) == if m < |queue| then queue[..m] + queue[m + 1..] else queue by {
      hide HeldBack, InQueue, FirstMatch;
    }
    assert m < |queue| ==> queue[m].key == d.key;
    hide HeldBack, InQueue, Resume, FirstMatch;
    if m < |queue| {
      OneTakenOut(queue, m, g, key, hold, deadline, behind);
    }
  }

  lemma OneTakenOut(queue: seq<Record>, m: nat, g: nat, key: Key, hold: Hold, deadline: real, behind: nat)
    requires m < |queue| && queue[m].key != key && InQueue(queue, g, key, hold, deadline, behind)
    ensures InQueue(queue[..m] + queue[m + 1..], g, key, hold, deadline, behind)
  {
    var i :| 0 <= i < |queue| && Waits(queue[i], g, key, hold, deadline) && |queue| - 1 - i <= behind;
    var rest := queue[..m] + queue[m + 1..];
    assert m != i;
    assert rest[if i < m then i else i - 1] == queue[i];
  }

  lemma SameQueue(l: Ledger, after: Ledger, p: Path, g: nat, key: Key, hold: Hold, deadline: real, behind: nat)
    requires HeldBack(l, p, g, key, hold, deadline, behind) && HeldAt(after, p) == HeldAt(l, p)
    ensures HeldBack(after, p, g, key, hold, deadline, behind)
  {
  }

  lemma MoreBehind(l: Ledger, p: Path, g: nat, key: Key, hold: Hold, deadline: real, behind: nat, more: nat)
    requires HeldBack(l, p, g, key, hold, deadline, behind) && behind <= more
    ensures HeldBack(l, p, g, key, hold, deadline, more)
  {
  }

  lemma EnteredKeepsPlace(l: Ledger, m: Completion, p: Path, g: nat, key: Key, hold: Hold, deadline: real, behind: nat)
    requires HeldBack(l, p, g, key, hold, deadline, behind)
    ensures HeldBack(Entered(l, m), p, g, key, hold, deadline, behind)
  {
    var queue := HeldAt(l, p);
    var i :| 0 <= i < |queue| && Waits(queue[i], g, key, hold, deadline) && |queue| - 1 - i <= behind;
    var after := HeldAt(Entered(l, m), p);
    assert p != m.path ==> after == queue;
    assert |after| == |queue| && Waits(after[i], g, key, hold, deadline);
  }

  /** The current run of the path is superseded by this derivation. */
  predicate Moves(l: Ledger, p: Path, d: Demand) {
    p in l.current && (d.Unavailable? || l.current[p].key != d.key || NeedsRerun(l.current[p], d))
  }

  /** A derivation for another key, or for none, leaves a run held for a revert in place. */
  lemma DeriveKeepsPlace(l: Ledger, p: Path, d: Demand, now: real, g: nat, key: Key, hold: Hold, deadline: real,
      behind: nat)
    requires HeldBack(l, p, g, key, hold, deadline, behind) && (Moves(l, p, d) ==> behind + 1 < CAP)
    requires d.Want? ==> d.key != key && hold != Upstream
    ensures HeldBack(Derive(l, p, d, now), p, g, key, hold, deadline, behind + if Moves(l, p, d) then 1 else 0)
  {
    hide HeldBack, Suspend, Release, Resume;
    if d.Unavailable? {
      var mid := Suspend(l, p, d.unresolved, now);
      SuspendKeepsPlace(l, p, d.unresolved, now, g, key, hold, deadline, behind);
      SameQueue(mid, Derive(l, p, d, now), p, g, key, hold, deadline, behind + if p in l.current then 1 else 0);
    } else {
      var released := Release(l, p, d.key);
      var wanted := released.(demand := released.demand[p := d.key]);
      ReleaseKeepsPlace(l, p, d.key, g, key, hold, deadline, behind);
      ReleaseShows(l, p, d.key);
      SameQueue(released, wanted, p, g, key, hold, deadline, behind);
      var again := p in l.current && l.current[p].key == d.key;
      if again && !NeedsRerun(l.current[p], d) {
        SameQueue(wanted, Publish(wanted, p, l.current[p]), p, g, key, hold, deadline, behind);
      } else {
        SuspendKeepsPlace(wanted, p, d.unresolved, now, g, key, hold, deadline, behind);
        ResumeKeepsPlace(Suspend(wanted, p, d.unresolved, now), p, d,
          if again then Some(l.current[p].generation) else None, g, key, hold, deadline,
          behind + if p in l.current then 1 else 0);
      }
    }
  }

  // ----- events -----

  /** What an event derives the path for, and with which runs in the ledger. */
  function DerivedFor(l: Ledger, e: Event, p: Path): Option<(Ledger, Demand)>
    requires Possible(l, e)
  {
    match e
    case Derived(q, d, _) => if q == p then Some((l, d)) else None
    case Cleared(q, d, _) => if q == p then Some((WithoutRun(l, p), d)) else None
    case Finished(m, last, d, _) =>
      var taken := if last then l.(log := l.log.(mail := l.log.mail - {m})) else l;
      if m.path == p && Findable(l, p, m.generation) then Some((Entered(taken, m), d)) else None
    case _ => None
  }

  predicate Supersedes(l: Ledger, e: Event, p: Path)
    requires Possible(l, e)
  {
    var at := DerivedFor(l, e, p); at.Some? && Moves(at.value.0, p, at.value.1)
  }

  /** The event neither asks for the key, nor takes held runs of the path away, nor finds the run's
      time over. */
  predicate Spares(l: Ledger, e: Event, p: Path, g: nat, key: Key, deadline: real)
    requires Possible(l, e)
  {
    && (var at := DerivedFor(l, e, p); at.Some? && at.value.1.Want? ==> at.value.1.key != key)
    && match e
       case Expired(q, h, now) => !(q == p && h == g && deadline <= now)
       case Pruned(paths) => p !in paths
       case Deleted(q) => q != p
       case Replaced => false
       case _ => true
  }

  lemma ElsewhereDerives(l: Ledger, p: Path, q: Path, d: Demand, now: real)
    requires Kept(l) && p != q
    ensures HeldAt(Derive(l, q, d, now), p) == HeldAt(l, p)
  {
    DeriveAt(l, q, d, now);
    hide Derive, Kept;
  }

  lemma SparedStays(l: Ledger, e: Event, p: Path, g: nat, key: Key, deadline: real, behind: nat)
    requires Sound(l) && Possible(l, e) && Spares(l, e, p, g, key, deadline)
    requires HeldBack(l, p, g, key, SelfEdit, deadline, behind) && (Supersedes(l, e, p) ==> behind + 1 < CAP)
    ensures HeldBack(Next(l, e), p, g, key, SelfEdit, deadline, behind + if Supersedes(l, e, p) then 1 else 0)
  {
    hide HeldBack, Derive, Moves, Expire, PathSound, Displays;
    match e {
      case Derived(q, d, now) =>
        if q == p {
          DeriveKeepsPlace(l, p, d, now, g, key, SelfEdit, deadline, behind);
        } else {
          ElsewhereDerives(l, p, q, d, now);
          SameQueue(l, Next(l, e), p, g, key, SelfEdit, deadline, behind);
        }
      case Cleared(q, d, now) =>
        var without := WithoutRun(l, q);
        SameQueue(l, without, p, g, key, SelfEdit, deadline, behind);
        if q == p {
          DeriveKeepsPlace(without, p, d, now, g, key, SelfEdit, deadline, behind);
        } else {
          WithoutRunKeeps(l, q);
          ElsewhereDerives(without, p, q, d, now);
          SameQueue(without, Next(l, e), p, g, key, SelfEdit, deadline, behind);
        }
      case Finished(m, last, d, now) =>
        FinishedStays(l, e, p, g, key, deadline, behind);
      case Expired(q, h, now) =>
        ExpireKeepsPlace(l, q, h, now, p, g, key, SelfEdit, deadline, behind);
      case Ended(_, _) => SameQueue(l, Next(l, e), p, g, key, SelfEdit, deadline, behind);
      case Died(_) => SameQueue(l, Next(l, e), p, g, key, SelfEdit, deadline, behind);
      case Pruned(_) => SameQueue(l, Next(l, e), p, g, key, SelfEdit, deadline, behind);
      case Deleted(_) => SameQueue(l, Next(l, e), p, g, key, SelfEdit, deadline, behind);
      case Elsewhere => SameQueue(l, Next(l, e), p, g, key, SelfEdit, deadline, behind);
      case Replaced => assert false;
    }
  }

  lemma ExpireKeepsPlace(l: Ledger, q: Path, h: nat, now: real, p: Path, g: nat, key: Key, hold: Hold, deadline: real,
      behind: nat)
    requires HeldBack(l, p, g, key, hold, deadline, behind) && !(q == p && h == g && deadline <= now)
    ensures HeldBack(Expire(l, q, h, now), p, g, key, hold, deadline, behind)
  {
    if q == p && p in l.held {
      HeldIsInQueue(l, p, g, key, hold, deadline, behind);
      UnexpiredKeepsPlace(HeldAt(l, p), h, now, g, key, hold, deadline, behind);
      HeldIsInQueue(Expire(l, q, h, now), p, g, key, hold, deadline, behind);
      hide InQueue, HeldBack;
    } else {
      SameQueue(l, Expire(l, q, h, now), p, g, key, hold, deadline, behind);
    }
  }

  lemma FinishedStays(l: Ledger, e: Event, p: Path, g: nat, key: Key, deadline: real, behind: nat)
    requires Sound(l) && e.Finished? && Possible(l, e) && Spares(l, e, p, g, key, deadline)
    requires HeldBack(l, p, g, key, SelfEdit, deadline, behind) && (Supersedes(l, e, p) ==> behind + 1 < CAP)
    ensures HeldBack(Next(l, e), p, g, key, SelfEdit, deadline, behind + if Supersedes(l, e, p) then 1 else 0)
  {
    var m := e.m;
    var taken := if e.last then l.(log := l.log.(mail := l.log.mail - {m})) else l;
    var entered := Entered(taken, m);
    EnteredKeeps(l, m, e.last);
    hide HeldBack, Derive, Moves, Entered, Findable, PathSound, Displays;
    SameQueue(l, taken, p, g, key, SelfEdit, deadline, behind);
    if Findable(taken, m.path, m.generation) {
      assert Findable(l, m.path, m.generation) by { SameFindable(l, taken, m); }
      EnteredKeepsPlace(taken, m, p, g, key, SelfEdit, deadline, behind);
      if m.path == p {
        DeriveKeepsPlace(entered, p, e.d, e.now, g, key, SelfEdit, deadline, behind);
      } else {
        ElsewhereDerives(entered, p, m.path, e.d, e.now);
        SameQueue(entered, Next(l, e), p, g, key, SelfEdit, deadline, behind);
      }
    } else {
      SameFindable(l, taken, m);
    }
  }

  lemma SameFindable(l: Ledger, taken: Ledger, m: Completion)
    requires taken.current == l.current && taken.held == l.held
    ensures Findable(l, m.path, m.generation) == Findable(taken, m.path, m.generation)
  {
  }

  // ----- superseded while no source works -----

  lemma SupersededIsHeld(l: Ledger, p: Path, d: Demand, now: real)
    requires p in l.current && (d.Unavailable? || d.key != l.current[p].key)
    ensures var r := l.current[p];
            HeldBack(Derive(l, p, d, now), p, r.generation, r.key,
              if d.unresolved then Upstream else SelfEdit,
              now + if d.unresolved then 300.0 else 30.0, 0)
  {
    var r := l.current[p];
    var hold, deadline := if d.unresolved then Upstream else SelfEdit, now + if d.unresolved then 300.0 else 30.0;
    if d.Unavailable? {
      SuspendQueues(l, p, d.unresolved, now);
      SameQueue(Suspend(l, p, d.unresolved, now), Derive(l, p, d, now), p, r.generation, r.key, hold, deadline, 0);
    } else {
      var released := Release(l, p, d.key);
      var wanted := released.(demand := released.demand[p := d.key]);
      ReleaseShows(l, p, d.key);
      hide HeldBack, Release, Resume, Suspend;
      SuspendQueues(wanted, p, d.unresolved, now);
      ResumeKeepsPlace(Suspend(wanted, p, d.unresolved, now), p, d, None, r.generation, r.key, hold, deadline, 0);
    }
  }

  lemma SuspendQueues(l: Ledger, p: Path, unresolved: bool, now: real)
    requires p in l.current
    ensures var r := l.current[p];
            HeldBack(Suspend(l, p, unresolved, now), p, r.generation, r.key, if unresolved then Upstream else SelfEdit,
              now + if unresolved then 300.0 else 30.0, 0)
  {
    var queue := HeldAt(l, p) + [Suspended(l.current[p], unresolved, now)];
    var newest := Newest(queue);
    assert newest[|newest| - 1] == queue[|queue| - 1];
    assert HeldAt(Suspend(l, p, unresolved, now), p) == newest;
  }

  ghost predicate AllSpare(l: Ledger, events: seq<Event>, p: Path, g: nat, key: Key, deadline: real)
    requires Plays(l, events)
    decreases |events|
  {
    events == [] ||
    (Spares(l, events[0], p, g, key, deadline) && AllSpare(Next(l, events[0]), events[1..], p, g, key, deadline))
  }

  /** How many runs of the path were superseded. */
  ghost function Supersessions(l: Ledger, events: seq<Event>, p: Path): nat
    requires Plays(l, events)
    decreases |events|
  {
    if events == [] then 0
    else (if Supersedes(l, events[0], p) then 1 else 0) + Supersessions(Next(l, events[0]), events[1..], p)
  }

  lemma {:induction false} SparedStaysOn(l: Ledger, events: seq<Event>, p: Path, g: nat, key: Key, deadline: real,
      behind: nat)
    requires Sound(l) && Plays(l, events) && AllSpare(l, events, p, g, key, deadline)
    requires HeldBack(l, p, g, key, SelfEdit, deadline, behind) && behind + Supersessions(l, events, p) < CAP
    ensures Sound(Played(l, events))
    ensures HeldBack(Played(l, events), p, g, key, SelfEdit, deadline, behind + Supersessions(l, events, p))
    decreases |events|
  {
    hide HeldBack, Sound, Next, Spares, Supersedes;
    if events != [] {
      SparedStays(l, events[0], p, g, key, deadline, behind);
      NextKeeps(l, events[0]);
      SparedStaysOn(Next(l, events[0]), events[1..], p, g, key, deadline,
        behind + if Supersedes(l, events[0], p) then 1 else 0);
    }
  }

  /** A run with at most two behind it, the current one among them, can be used again. */
  lemma HeldIsReused(l: Ledger, p: Path, d: Demand, g: nat, deadline: real, behind: nat)
    requires d.Want? && HeldBack(l, p, g, d.key, SelfEdit, deadline, behind)
    requires behind + (if p in l.current then 1 else 0) < CAP
    ensures Reuses(l, p, d)
  {
    var queue := HeldAt(l, p);
    HeldIsInQueue(l, p, g, d.key, SelfEdit, deadline, behind);
    StayingKeepsPlace(queue, d.key, g, d.key, SelfEdit, deadline, behind);
    var staying := Staying(queue, d.key);
    var i :| 0 <= i < |staying| && Waits(staying[i], g, d.key, SelfEdit, deadline) && |staying| - 1 - i <= behind;
    hide Staying, HeldBack, InQueue;
    if p in l.current && |staying| == CAP {
      assert staying[1..][i - 1] == staying[i];
    }
  }

  /** A run that was superseded while no source worked is brought back by a return to its key, without a
      launch: through any other derivations, completions and housekeeping in between, as long as at most
      two runs of the path were superseded since, that of the return included, and until thirty seconds
      are over. It is that very run, if no other of the path was launched for the key. */
  lemma RevertBringsBack(l: Ledger, p: Path, first: Demand, since: real, events: seq<Event>, d: Demand, now: real)
    requires Sound(l) && p in l.current && !first.unresolved && (first.Unavailable? || first.key != l.current[p].key)
    requires var r, held := l.current[p], Derive(l, p, first, since);
             && Plays(held, events) && AllSpare(held, events, p, r.generation, r.key, since + 30.0)
             && d.Want? && d.key == r.key
             && Supersessions(held, events, p) + (if p in Played(held, events).current then 1 else 0) <= 2
    ensures var r, late := l.current[p], Played(Derive(l, p, first, since), events);
            var after := Derive(late, p, d, now);
            && after.log.launched == late.log.launched
            && p in after.current && after.current[p].key == r.key
            && ((forall g :: g in late.log.launched && late.log.launched[g] == Launch(p, r.key) ==>
                  g == r.generation) ==>
                  after.current[p].generation == r.generation)
  {
    var r, held := l.current[p], Derive(l, p, first, since);
    var late := Played(held, events);
    SupersededIsHeld(l, p, first, since);
    NextKeeps(l, Derived(p, first, since));
    hide HeldBack, Sound, Derive, Played, Plays, Reuses, AllSpare, Supersessions;
    SparedStaysOn(held, events, p, r.generation, r.key, since + 30.0, 0);
    HeldIsReused(late, p, d, r.generation, since + 30.0, Supersessions(held, events, p));
    LaunchesIff(late, p, d, now);
    NextKeeps(late, Derived(p, d, now));
    CurrentWasLaunched(Derive(late, p, d, now), p);
  }

  lemma CurrentWasLaunched(l: Ledger, p: Path)
    requires Sound(l) && p in l.current
    ensures var r := l.current[p];
            r.generation in l.log.launched && l.log.launched[r.generation] == Launch(p, r.key)
  {
    assert PathSound(l, p);
  }

  /** Until then it is held, whatever expires; and it goes exactly when its thirty seconds are over. */
  lemma RevertExpires(l: Ledger, p: Path, first: Demand, since: real, events: seq<Event>, now: real)
    requires Sound(l) && p in l.current && !first.unresolved && (first.Unavailable? || first.key != l.current[p].key)
    requires var r, held := l.current[p], Derive(l, p, first, since);
             && Plays(held, events) && AllSpare(held, events, p, r.generation, r.key, since + 30.0)
             && Supersessions(held, events, p) <= 2
    ensures var r, late := l.current[p], Played(Derive(l, p, first, since), events);
            && r.generation !in late.log.stopped
            && (r.generation in Expire(late, p, r.generation, now).log.stopped <==> since + 30.0 <= now)
  {
    var r, held := l.current[p], Derive(l, p, first, since);
    SupersededIsHeld(l, p, first, since);
    NextKeeps(l, Derived(p, first, since));
    hide HeldBack, Sound, Derive, Played, Plays, AllSpare, Supersessions, Expire;
    SparedStaysOn(held, events, p, r.generation, r.key, since + 30.0, 0);
    assert Kept(Played(held, events)) by { SoundIsKept(Played(held, events)); }
    ExpiresIff(Played(held, events), p, r.generation, r.key, SelfEdit, since + 30.0, Supersessions(held, events, p),
      now);
  }

  lemma SoundIsKept(l: Ledger)
    requires Sound(l)
    ensures Kept(l)
  {
  }

  lemma ExpiresIff(l: Ledger, p: Path, g: nat, key: Key, hold: Hold, deadline: real, behind: nat, now: real)
    requires Kept(l) && HeldBack(l, p, g, key, hold, deadline, behind)
    ensures g !in l.log.stopped && (g in Expire(l, p, g, now).log.stopped <==> deadline <= now)
  {
    var queue := HeldAt(l, p);
    var i :| 0 <= i < |queue| && Waits(queue[i], g, key, hold, deadline);
    assert PathSound(l, p) && queue[i] in queue && Genuine(l.log, p, queue[i]);
    forall r | r in queue && r.generation == g ensures r == queue[i] {
      SameGeneration(l.log, queue, r, queue[i]);
    }
    hide Kept, PathSound, Genuine;
  }

  // ----- superseded while a source works -----

  /** The run is held for its source, or was asked to stop. */
  ghost predicate HeldOrStopped(l: Ledger, p: Path, g: nat, key: Key, deadline: real) {
    g in l.log.stopped || HeldBack(l, p, g, key, Upstream, deadline, CAP)
  }

  lemma DeriveStops(l: Ledger, p: Path, d: Demand, now: real)
    ensures l.log.stopped <= Derive(l, p, d, now).log.stopped
  {
    SuspendStops(l, p, d.unresolved, now);
    if d.Want? {
      var released := Release(l, p, d.key);
      var wanted := released.(demand := released.demand[p := d.key]);
      SuspendStops(wanted, p, d.unresolved, now);
      ResumeStops(Suspend(wanted, p, d.unresolved, now), p, d,
        if p in l.current && l.current[p].key == d.key then Some(l.current[p].generation) else None);
      ReleaseShows(l, p, d.key);
      assert l.log.stopped <= wanted.log.stopped;
      hide Release, Suspend, Resume, NeedsRerun;
    }
  }

  lemma SuspendStops(l: Ledger, p: Path, unresolved: bool, now: real)
    ensures l.log.stopped <= Suspend(l, p, unresolved, now).log.stopped
  {
  }

  lemma ResumeStops(l: Ledger, p: Path, d: Demand, force: Option<nat>)
    requires d.Want?
    ensures Resume(l, p, d, force).log.stopped == l.log.stopped
  {
  }

  lemma StoppedGrows(l: Ledger, e: Event)
    requires Sound(l) && Possible(l, e)
    ensures l.log.stopped <= Next(l, e).log.stopped
  {
    hide Derive, PathSound, Displays;
    match e {
      case Derived(p, d, now) => DeriveStops(l, p, d, now);
      case Cleared(p, d, now) => DeriveStops(WithoutRun(l, p), p, d, now);
      case Finished(m, last, d, now) =>
        var taken := if last then l.(log := l.log.(mail := l.log.mail - {m})) else l;
        DeriveStops(Entered(taken, m), m.path, d, now);
      case _ =>
    }
  }

  /** The first of a full queue is asked to stop, as another run joins it. */
  lemma SuspendHoldsOrStops(l: Ledger, p: Path, unresolved: bool, now: real, g: nat, key: Key, deadline: real)
    requires HeldBack(l, p, g, key, Upstream, deadline, CAP)
    ensures HeldOrStopped(Suspend(l, p, unresolved, now), p, g, key, deadline)
  {
    if p in l.current {
      var after, back := Suspend(l, p, unresolved, now), Suspended(l.current[p], unresolved, now);
      var queue := HeldAt(l, p) + [back];
      var i :| 0 <= i < |HeldAt(l, p)| && Waits(HeldAt(l, p)[i], g, key, Upstream, deadline);
      assert queue[i] == HeldAt(l, p)[i];
      var cut := |queue| - |Newest(queue)|;
      assert HeldAt(after, p) == Newest(queue) == queue[cut..];
      if i < cut {
        assert Oldest(queue) == queue[..cut] && Oldest(queue)[i] == queue[i];
      } else {
        assert Newest(queue)[i - cut] == queue[i];
      }
    }
  }

  lemma UnavailableHoldsOrStops(l: Ledger, p: Path, d: Demand, now: real, g: nat, key: Key, deadline: real)
    requires HeldOrStopped(l, p, g, key, deadline) && d.Unavailable?
    ensures HeldOrStopped(Derive(l, p, d, now), p, g, key, deadline)
  {
    DeriveStops(l, p, d, now);
    if g !in l.log.stopped {
      var mid := Suspend(l, p, d.unresolved, now);
      SuspendHoldsOrStops(l, p, d.unresolved, now, g, key, deadline);
      hide Suspend, HeldBack;
      if g !in mid.log.stopped {
        SameQueue(mid, Derive(l, p, d, now), p, g, key, Upstream, deadline, CAP);
      }
    }
  }

  lemma ExpireHoldsOrStops(l: Ledger, q: Path, h: nat, now: real, p: Path, g: nat, key: Key, deadline: real)
    requires HeldBack(l, p, g, key, Upstream, deadline, CAP)
    ensures HeldOrStopped(Expire(l, q, h, now), p, g, key, deadline)
  {
    if q == p && h == g && deadline <= now {
      var i :| 0 <= i < |HeldAt(l, p)| && Waits(HeldAt(l, p)[i], g, key, Upstream, deadline);
      assert HeldAt(l, p)[i] in l.held[p] && Expires(HeldAt(l, p)[i], h, now);
    } else {
      ExpireKeepsPlace(l, q, h, now, p, g, key, Upstream, deadline, CAP);
    }
  }

  lemma PruneStops(l: Ledger, paths: set<Path>, p: Path, g: nat, key: Key, deadline: real)
    requires HeldBack(l, p, g, key, Upstream, deadline, CAP) && p in paths
    ensures g in Prune(l, paths).log.stopped
  {
    var i :| 0 <= i < |HeldAt(l, p)| && Waits(HeldAt(l, p)[i], g, key, Upstream, deadline);
    assert HeldAt(l, p)[i] in l.held[p];
  }

  lemma HeldWasLaunched(l: Ledger, p: Path, g: nat, key: Key, deadline: real)
    requires Sound(l) && HeldBack(l, p, g, key, Upstream, deadline, CAP)
    ensures g in l.log.launched
  {
    var i :| 0 <= i < |HeldAt(l, p)| && Waits(HeldAt(l, p)[i], g, key, Upstream, deadline);
    assert PathSound(l, p) && HeldAt(l, p)[i] in HeldAt(l, p) && Genuine(l.log, p, HeldAt(l, p)[i]);
  }

  /** No key is derived for the path. */
  predicate WantsNone(l: Ledger, e: Event, p: Path)
    requires Possible(l, e)
  {
    var at := DerivedFor(l, e, p); at.Some? ==> at.value.1.Unavailable?
  }

  lemma StaysOrStops(l: Ledger, e: Event, p: Path, g: nat, key: Key, deadline: real)
    requires Sound(l) && Possible(l, e) && WantsNone(l, e, p) && HeldOrStopped(l, p, g, key, deadline)
    ensures HeldOrStopped(Next(l, e), p, g, key, deadline)
  {
    StoppedGrows(l, e);
    if g !in l.log.stopped {
      hide HeldBack, Derive, Expire, PathSound, Displays;
      match e {
        case Derived(q, d, now) =>
          if q == p {
            UnavailableHoldsOrStops(l, p, d, now, g, key, deadline);
          } else {
            ElsewhereDerives(l, p, q, d, now);
            SameQueue(l, Next(l, e), p, g, key, Upstream, deadline, CAP);
          }
        case Cleared(q, d, now) =>
          var without := WithoutRun(l, q);
          SameQueue(l, without, p, g, key, Upstream, deadline, CAP);
          if q == p {
            UnavailableHoldsOrStops(without, p, d, now, g, key, deadline);
          } else {
            WithoutRunKeeps(l, q);
            ElsewhereDerives(without, p, q, d, now);
            SameQueue(without, Next(l, e), p, g, key, Upstream, deadline, CAP);
          }
        case Finished(m, last, d, now) => FinishedHoldsOrStops(l, e, p, g, key, deadline);
        case Expired(q, h, now) => ExpireHoldsOrStops(l, q, h, now, p, g, key, deadline);
        case Pruned(paths) =>
          if p in paths {
            PruneStops(l, paths, p, g, key, deadline);
          } else {
            SameQueue(l, Next(l, e), p, g, key, Upstream, deadline, CAP);
          }
        case Deleted(q) =>
          SameQueue(l, WithoutRun(l, q), p, g, key, Upstream, deadline, CAP);
          if q == p {
            PruneStops(WithoutRun(l, p), {p}, p, g, key, deadline);
          } else {
            SameQueue(l, Next(l, e), p, g, key, Upstream, deadline, CAP);
          }
        case Replaced => HeldWasLaunched(l, p, g, key, deadline);
        case _ => SameQueue(l, Next(l, e), p, g, key, Upstream, deadline, CAP);
      }
    }
  }

  lemma FinishedHoldsOrStops(l: Ledger, e: Event, p: Path, g: nat, key: Key, deadline: real)
    requires Sound(l) && e.Finished? && Possible(l, e) && WantsNone(l, e, p)
    requires HeldBack(l, p, g, key, Upstream, deadline, CAP)
    ensures HeldOrStopped(Next(l, e), p, g, key, deadline)
  {
    var m := e.m;
    var taken := if e.last then l.(log := l.log.(mail := l.log.mail - {m})) else l;
    var entered := Entered(taken, m);
    EnteredKeeps(l, m, e.last);
    SameFindable(l, taken, m);
    hide HeldBack, Derive, Entered, Findable, PathSound, Displays;
    SameQueue(l, taken, p, g, key, Upstream, deadline, CAP);
    if Findable(taken, m.path, m.generation) {
      EnteredKeepsPlace(taken, m, p, g, key, Upstream, deadline, CAP);
      if m.path == p {
        UnavailableHoldsOrStops(entered, p, e.d, e.now, g, key, deadline);
      } else {
        ElsewhereDerives(entered, p, m.path, e.d, e.now);
        SameQueue(entered, Next(l, e), p, g, key, Upstream, deadline, CAP);
      }
    }
  }

  ghost predicate NoneWanted(l: Ledger, events: seq<Event>, p: Path)
    requires Plays(l, events)
    decreases |events|
  {
    events == [] || (WantsNone(l, events[0], p) && NoneWanted(Next(l, events[0]), events[1..], p))
  }

  lemma {:induction false} StaysOrStopsOn(l: Ledger, events: seq<Event>, p: Path, g: nat, key: Key, deadline: real)
    requires Sound(l) && Plays(l, events) && NoneWanted(l, events, p) && HeldOrStopped(l, p, g, key, deadline)
    ensures Sound(Played(l, events)) && HeldOrStopped(Played(l, events), p, g, key, deadline)
    decreases |events|
  {
    hide HeldOrStopped, Sound, Next, WantsNone;
    if events != [] {
      StaysOrStops(l, events[0], p, g, key, deadline);
      NextKeeps(l, events[0]);
      StaysOrStopsOn(Next(l, events[0]), events[1..], p, g, key, deadline);
    }
  }

  lemma OtherKeyStops(l: Ledger, p: Path, d: Demand, now: real, g: nat, key: Key, deadline: real)
    requires d.Want? && d.key != key && HeldOrStopped(l, p, g, key, deadline)
    ensures g in Derive(l, p, d, now).log.stopped
  {
    DeriveStops(l, p, d, now);
    if g !in l.log.stopped {
      var released := Release(l, p, d.key);
      var wanted := released.(demand := released.demand[p := d.key]);
      var i :| 0 <= i < |HeldAt(l, p)| && Waits(HeldAt(l, p)[i], g, key, Upstream, deadline);
      assert HeldAt(l, p)[i] in l.held[p] && !Stays(HeldAt(l, p)[i], d.key);
      assert g in wanted.log.stopped;
      ReleaseShows(l, p, d.key);
      SuspendStops(wanted, p, d.unresolved, now);
      ResumeStops(Suspend(wanted, p, d.unresolved, now), p, d,
        if p in l.current && l.current[p].key == d.key then Some(l.current[p].generation) else None);
      hide Release, Suspend, Resume, NeedsRerun;
    }
  }

  /** A run that was superseded while a source worked waits for its source only. The first derivation
      for another key ends that: it is asked to stop, and is out of the ledger for good. */
  lemma SourceEndsTheHold(l: Ledger, p: Path, first: Demand, since: real, events: seq<Event>, d: Demand, now: real)
    requires Sound(l) && p in l.current && first.unresolved && (first.Unavailable? || first.key != l.current[p].key)
    requires var held := Derive(l, p, first, since);
             Plays(held, events) && NoneWanted(held, events, p) && d.Want? && d.key != l.current[p].key
    ensures var g, after := l.current[p].generation, Derive(Played(Derive(l, p, first, since), events), p, d, now);
            && g in after.log.stopped
            && (forall r :: r in HeldAt(after, p) ==> r.generation != g)
            && (p in after.current ==> after.current[p].generation != g)
  {
    var r, held := l.current[p], Derive(l, p, first, since);
    SupersededIsHeld(l, p, first, since);
    MoreBehind(held, p, r.generation, r.key, Upstream, since + 300.0, 0, CAP);
    NextKeeps(l, Derived(p, first, since));
    hide HeldBack, Sound, Derive, Played, Plays, NoneWanted;
    StaysOrStopsOn(held, events, p, r.generation, r.key, since + 300.0);
    var late := Played(held, events);
    OtherKeyStops(late, p, d, now, r.generation, r.key, since + 300.0);
    NextKeeps(late, Derived(p, d, now));
    StoppedIsGone(Derive(late, p, d, now), p, r.generation);
  }

  lemma StoppedIsGone(l: Ledger, p: Path, g: nat)
    requires Sound(l) && g in l.log.stopped
    ensures (forall r :: r in HeldAt(l, p) ==> r.generation != g) && (p in l.current ==> l.current[p].generation != g)
  {
    assert PathSound(l, p);
    forall r | r in HeldAt(l, p) ensures r.generation != g {
      assert Genuine(l.log, p, r);
    }
  }

  /** While nothing is derived for the path it is held, and goes exactly when three hundred seconds are
      over, if the cap or a prune has not taken it before. */
  lemma SourceHoldExpires(l: Ledger, p: Path, first: Demand, since: real, events: seq<Event>, now: real)
    requires Sound(l) && p in l.current && first.unresolved && (first.Unavailable? || first.key != l.current[p].key)
    requires var held := Derive(l, p, first, since);
             && Plays(held, events) && NoneWanted(held, events, p)
             && l.current[p].generation !in Played(held, events).log.stopped
    ensures var g, late := l.current[p].generation, Played(Derive(l, p, first, since), events);
            g in Expire(late, p, g, now).log.stopped <==> since + 300.0 <= now
  {
    var r, held := l.current[p], Derive(l, p, first, since);
    SupersededIsHeld(l, p, first, since);
    MoreBehind(held, p, r.generation, r.key, Upstream, since + 300.0, 0, CAP);
    NextKeeps(l, Derived(p, first, since));
    hide HeldBack, Sound, Derive, Played, Plays, NoneWanted, Expire;
    StaysOrStopsOn(held, events, p, r.generation, r.key, since + 300.0);
    assert Kept(Played(held, events)) by { SoundIsKept(Played(held, events)); }
    ExpiresIff(Played(held, events), p, r.generation, r.key, Upstream, since + 300.0, CAP, now);
  }
}
