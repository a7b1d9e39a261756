/** No execution is forgotten: one that runs is in the ledger, or was asked to stop. */
module RunsAccounted {
  import opened Wrappers
  import opened RunLedger

  /** The runs that the ledger has for the path, by generation. */
  function Runs(l: Ledger, p: Path): set<nat> {
    Generations(HeldAt(l, p)) + (if p in l.current then {l.current[p].generation} else {})
  }

  ghost predicate Accounted(l: Ledger) {
    forall g :: g in l.log.running ==> g in l.log.stopped || exists p :: g in Runs(l, p)
  }

  /** What leaves the ledger at the path was asked to stop; and what runs ran before, or is in it, or was
      asked to stop. */
  ghost predicate Accounts(l: Ledger, after: Ledger, p: Path) {
    && Runs(l, p) <= Runs(after, p) + after.log.stopped && l.log.stopped <= after.log.stopped
    && forall g :: g in after.log.running ==> g in l.log.running || g in Runs(after, p) + after.log.stopped
  }

  lemma AccountsOn(l: Ledger, mid: Ledger, after: Ledger, p: Path)
    requires Accounts(l, mid, p) && Accounts(mid, after, p)
    ensures Accounts(l, after, p)
  {
  }

  lemma SameRuns(l: Ledger, after: Ledger, p: Path)
    requires after.current == l.current && after.held == l.held && after.log == l.log
    ensures Accounts(l, after, p)
  {
    assert Runs(after, p) == Runs(l, p);
  }

  // ----- each operation -----

  lemma SuspendAccounts(l: Ledger, p: Path, unresolved: bool, now: real)
    ensures Accounts(l, Suspend(l, p, unresolved, now), p)
  {
    var after := Suspend(l, p, unresolved, now);
    if p in l.current {
      var back := Suspended(l.current[p], unresolved, now);
      var queue := HeldAt(l, p) + [back];
      assert queue == Oldest(queue) + Newest(queue);
      assert HeldAt(after, p) == Newest(queue) && after.log == Stop(l.log, Generations(Oldest(queue)));
      forall g | g in Runs(l, p) ensures g in Runs(after, p) + after.log.stopped {
        var r :| r in queue && r.generation == g;
      }
    } else {
      SameRuns(l, after, p);
    }
  }

  lemma {:induction false} StayingOrLeaving(queue: seq<Record>, key: Key)
    ensures forall r :: r in queue ==> r in Staying(queue, key) || r.generation in Leaving(queue, key)
  {
    if queue != [] {
      StayingOrLeaving(queue[1..], key);
      forall r | r in queue ensures r in Staying(queue, key) || r.generation in Leaving(queue, key) {
        if r in queue[1..] && r !in Staying(queue[1..], key) {
          var s :| s in queue[1..] && !Stays(s, key) && s.generation == r.generation;
          assert s in queue;
        }
      }
    }
  }

  lemma ReleaseAccounts(l: Ledger, p: Path, key: Key)
    ensures Accounts(l, Release(l, p, key), p)
  {
    var after := Release(l, p, key);
    if p in l.held {
      StayingOrLeaving(l.held[p], key);
      forall g | g in Runs(l, p) ensures g in Runs(after, p) + after.log.stopped {
        if g in Generations(HeldAt(l, p)) {
          var r :| r in HeldAt(l, p) && r.generation == g;
        }
      }
    } else {
      SameRuns(l, after, p);
    }
  }

  lemma ResumeAccounts(l: Ledger, p: Path, d: Demand, force: Option<nat>)
    requires d.Want? && p !in l.current
    ensures Accounts(l, Resume(l, p, d, force), p)
  {
    var after, queue := Resume(l, p, d, force), HeldAt(l, p);
    var i := FirstMatch(queue, d.key, force);
    if i < |queue| {
      var rest := queue[..i] + queue[i + 1..];
      assert HeldAt(after, p) == rest && after.current[p].generation == queue[i].generation;
      forall g | g in Runs(l, p) ensures g in Runs(after, p) {
        var r :| r in queue && r.generation == g;
        if r != queue[i] {
          assert r in rest;
        }
      }
    } else {
      assert HeldAt(after, p) == queue;
    }
  }

  lemma DeriveAccounts(l: Ledger, p: Path, d: Demand, now: real)
    requires Kept(l)
    ensures Accounts(l, Derive(l, p, d, now), p)
  {
    var after := Derive(l, p, d, now);
    hide Accounts, Suspend, Release, Resume, NeedsRerun, Kept;
    if d.Unavailable? {
      var mid := Suspend(l, p, d.unresolved, now);
      SuspendAccounts(l, p, d.unresolved, now);
      SameRuns(mid, after, p);
      AccountsOn(l, mid, after, p);
    } else {
      var released := Release(l, p, d.key);
      var wanted := released.(demand := released.demand[p := d.key]);
      ReleaseAccounts(l, p, d.key);
      ReleaseKeeps(l, p, d.key);
      ReleaseShows(l, p, d.key);
      ShowingKeeps(released, wanted);
      SameRuns(released, wanted, p);
      AccountsOn(l, released, wanted, p);
      var again := p in l.current && l.current[p].key == d.key;
      if again && !NeedsRerun(l.current[p], d) {
        SameRuns(wanted, after, p);
        AccountsOn(l, wanted, after, p);
      } else {
        var mid := Suspend(wanted, p, d.unresolved, now);
        SuspendAccounts(wanted, p, d.unresolved, now);
        SuspendKeeps(wanted, p, d.unresolved, now);
        AccountsOn(l, wanted, mid, p);
        ResumeAccounts(mid, p, d, if again then Some(l.current[p].generation) else None);
        AccountsOn(l, mid, after, p);
      }
    }
  }

  lemma {:induction false} UnexpiredOrExpires(queue: seq<Record>, g: nat, now: real)
    ensures forall r :: r in queue ==> r in Unexpired(queue, g, now) || Expires(r, g, now)
  {
    if queue != [] {
      UnexpiredOrExpires(queue[1..], g, now);
    }
  }

  lemma ExpireAccounts(l: Ledger, p: Path, g: nat, now: real)
    ensures Accounts(l, Expire(l, p, g, now), p)
  {
    var after := Expire(l, p, g, now);
    if p in l.held {
      UnexpiredOrExpires(l.held[p], g, now);
      forall h | h in Runs(l, p) ensures h in Runs(after, p) + after.log.stopped {
        if h in Generations(HeldAt(l, p)) {
          var r :| r in HeldAt(l, p) && r.generation == h;
        }
      }
    } else {
      SameRuns(l, after, p);
    }
  }

  lemma WithoutRunAccounts(l: Ledger, p: Path)
    ensures Accounts(l, WithoutRun(l, p), p)
  {
    if p in l.current {
      assert HeldAt(WithoutRun(l, p), p) == HeldAt(l, p);
    } else {
      SameRuns(l, WithoutRun(l, p), p);
    }
  }

  lemma PruneAccounts(l: Ledger, paths: set<Path>, p: Path)
    ensures Accounts(l, Prune(l, paths), p)
  {
    var after := Prune(l, paths);
    forall g | g in Runs(l, p) ensures g in Runs(after, p) + after.log.stopped {
      if g in Generations(HeldAt(l, p)) && p in paths {
        var r :| r in HeldAt(l, p) && r.generation == g;
        assert r in l.held[p];
      } else {
        assert p !in paths ==> HeldAt(after, p) == HeldAt(l, p);
      }
    }
  }

  lemma EnteredRuns(l: Ledger, m: Completion, p: Path)
    ensures Runs(Entered(l, m), p) == Runs(l, p)
  {
    var after := Entered(l, m);
    var queue, filled := HeldAt(l, p), HeldAt(after, p);
    assert |filled| == |queue| && forall i :: 0 <= i < |queue| ==> filled[i].generation == queue[i].generation;
    assert Generations(filled) == Generations(queue) by {
      forall r | r in queue ensures r.generation in Generations(filled) {
        var i :| 0 <= i < |queue| && queue[i] == r;
        assert filled[i] in filled;
      }
      forall r | r in filled ensures r.generation in Generations(queue) {
        var i :| 0 <= i < |filled| && filled[i] == r;
        assert queue[i] in queue;
      }
    }
  }

  // ----- every run of the ledger -----

  /** A step that accounts for one path, and leaves the runs of the others. */
  lemma OnePathAccounts(l: Ledger, after: Ledger, p: Path)
    requires Accounted(l) && Accounts(l, after, p) && OnlyAt(l, after, p)
    ensures Accounted(after)
  {
    forall g | g in after.log.running && g !in after.log.stopped ensures exists q :: g in Runs(after, q) {
      if g in l.log.running {
        var q :| g in Runs(l, q);
        if q != p {
          assert Runs(after, q) == Runs(l, q);
        }
        assert g in Runs(after, q);
      } else {
        assert g in Runs(after, p);
      }
    }
  }

  lemma EachPathAccounts(l: Ledger, after: Ledger)
    requires Accounted(l) && forall p :: Accounts(l, after, p)
    requires after.log.running <= l.log.running
    ensures Accounted(after)
  {
    assert Accounts(l, after, 0);
    forall g | g in after.log.running && g !in after.log.stopped ensures exists q :: g in Runs(after, q) {
      var q :| g in Runs(l, q);
      assert Accounts(l, after, q);
    }
  }

  lemma DerivedAccounts(l: Ledger, p: Path, d: Demand, now: real)
    requires Kept(l) && Accounted(l)
    ensures Accounted(Derive(l, p, d, now))
  {
    DeriveAccounts(l, p, d, now);
    DeriveAt(l, p, d, now);
    hide Derive, Kept, Accounts, Accounted;
    OnePathAccounts(l, Derive(l, p, d, now), p);
  }

  lemma NextAccounts(l: Ledger, e: Event)
    requires Sound(l) && Possible(l, e) && Accounted(l)
    ensures Accounted(Next(l, e))
  {
    hide Derive, PathSound, Displays, Expire, Prune, WithoutRun, Entered, Accounted;
    match e {
      case Derived(p, d, now) => DerivedAccounts(l, p, d, now);
      case Cleared(p, d, now) =>
        WithoutRunKeeps(l, p);
        DroppedAccounts(l, p);
        DerivedAccounts(WithoutRun(l, p), p, d, now);
      case Finished(m, last, d, now) => FinishedAccounts(l, m, last, d, now);
      case Expired(p, g, now) =>
        ExpireAccounts(l, p, g, now);
        ExpireOnly(l, p, g, now);
        OnePathAccounts(l, Next(l, e), p);
      case Pruned(paths) => PrunedAccounts(l, paths);
      case Deleted(p) => DeletedAccounts(l, p);
      case _ => QuietAccounts(l, e);
    }
  }

  lemma DroppedAccounts(l: Ledger, p: Path)
    requires Accounted(l)
    ensures Accounted(WithoutRun(l, p))
  {
    WithoutRunAccounts(l, p);
    assert OnlyAt(l, WithoutRun(l, p), p);
    hide Accounts, Accounted, WithoutRun;
    OnePathAccounts(l, WithoutRun(l, p), p);
  }

  lemma ExpireOnly(l: Ledger, p: Path, g: nat, now: real)
    ensures OnlyAt(l, Expire(l, p, g, now), p)
  {
  }

  lemma PrunedAccounts(l: Ledger, paths: set<Path>)
    requires Accounted(l)
    ensures Accounted(Prune(l, paths))
  {
    forall p ensures Accounts(l, Prune(l, paths), p) {
      PruneAccounts(l, paths, p);
    }
    assert Prune(l, paths).log.running == l.log.running;
    hide Accounts, Accounted, Prune;
    EachPathAccounts(l, Prune(l, paths));
  }

  lemma DeletedAccounts(l: Ledger, p: Path)
    requires Accounted(l)
    ensures Accounted(Delete(l, p))
  {
    DroppedAccounts(l, p);
    PrunedAccounts(WithoutRun(l, p), {p});
    var mid := Prune(WithoutRun(l, p), {p});
    assert forall q :: Runs(Delete(l, p), q) == Runs(mid, q);
    assert Delete(l, p).log == mid.log;
    hide Prune, WithoutRun, Runs;
  }

  lemma FinishedAccounts(l: Ledger, m: Completion, last: bool, d: Demand, now: real)
    requires Sound(l) && m in l.log.mail && Accounted(l)
    ensures Accounted(Finish(l, m, last, d, now))
  {
    var taken := if last then l.(log := l.log.(mail := l.log.mail - {m})) else l;
    var entered := Entered(taken, m);
    assert forall p :: Runs(taken, p) == Runs(l, p);
    assert Accounted(taken);
    forall p ensures Runs(entered, p) == Runs(taken, p) {
      EnteredRuns(taken, m, p);
    }
    EnteredKeeps(l, m, last);
    assert entered.log == taken.log;
    hide Entered, Sound, Runs, Findable, Kept;
    assert Accounted(entered);
    hide Accounted, Derive;
    if Findable(taken, m.path, m.generation) {
      DerivedAccounts(entered, m.path, d, now);
    }
  }

  lemma QuietAccounts(l: Ledger, e: Event)
    requires Sound(l) && Possible(l, e) && Accounted(l)
    requires e.Ended? || e.Died? || e.Replaced? || e.Elsewhere?
    ensures Accounted(Next(l, e))
  {
    var after := Next(l, e);
    if e.Replaced? {
      assert l.log.running <= l.log.launched.Keys;
    } else {
      assert forall p :: Runs(after, p) == Runs(l, p);
    }
    hide Runs, PathSound, Displays;
  }

  lemma {:induction false} PlayedAccounts(l: Ledger, events: seq<Event>)
    requires Sound(l) && Plays(l, events) && Accounted(l)
    ensures Accounted(Played(l, events))
    decreases |events|
  {
    hide Sound, Next, Accounted;
    if events != [] {
      NextKeeps(l, events[0]);
      NextAccounts(l, events[0]);
      PlayedAccounts(Next(l, events[0]), events[1..]);
    }
  }

  /** Over every run of events each execution that runs, and was not asked to stop, is one of the ledger's
      current or held runs: superseded past the cap, expired, pruned, deleted, cleared or replaced, it is
      asked to stop. */
  lemma NoExecutionIsForgotten(events: seq<Event>, g: nat)
    requires Plays(EMPTY, events)
    ensures var l := Played(EMPTY, events);
            g in l.log.running && g !in l.log.stopped ==>
              exists p, r :: InLedger(l, p, r) && r.generation == g
  {
    PlayedAccounts(EMPTY, events);
    var l := Played(EMPTY, events);
    if g in l.log.running && g !in l.log.stopped {
      var p :| g in Runs(l, p);
      if g in Generations(HeldAt(l, p)) {
        var r :| r in HeldAt(l, p) && r.generation == g;
        assert InLedger(l, p, r);
      } else {
        assert InLedger(l, p, l.current[p]);
      }
    }
  }
}
