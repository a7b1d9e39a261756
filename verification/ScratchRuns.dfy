/** A run that was made for scratch is made again once its value is needed and out of reach. */
module ScratchRuns {
  import opened Wrappers
  import opened RunLedger

  /** Every record of the generation says whether it was launched for scratch. */
  ghost predicate Flagged(l: Ledger, g: nat, scratch: bool) {
    forall p, r :: InLedger(l, p, r) && r.generation == g ==> r.scratch == scratch
  }

  predicate SameRun(r: Record, s: Record) { r.generation == s.generation && r.scratch == s.scratch }

  /** What the ledger has for the path it had before, or it is of the next generation. */
  ghost predicate ComesFrom(l: Ledger, after: Ledger, p: Path) {
    forall r :: InLedger(after, p, r) ==>
      r.generation == l.log.generation + 1 || exists s :: InLedger(l, p, s) && SameRun(r, s)
  }

  /** The same, but nothing is of the next generation. */
  ghost predicate Rearranged(l: Ledger, after: Ledger, p: Path) {
    && after.log.generation == l.log.generation
    && forall r :: InLedger(after, p, r) ==> exists s :: InLedger(l, p, s) && SameRun(r, s)
  }

  lemma Then(l: Ledger, mid: Ledger, after: Ledger, p: Path)
    requires Rearranged(l, mid, p) && ComesFrom(mid, after, p)
    ensures ComesFrom(l, after, p)
  {
    forall r | InLedger(after, p, r) && r.generation != l.log.generation + 1
      ensures exists s :: InLedger(l, p, s) && SameRun(r, s) {
      var s :| InLedger(mid, p, s) && SameRun(r, s);
      var t :| InLedger(l, p, t) && SameRun(s, t);
      assert SameRun(r, t);
    }
  }

  lemma RearrangedTwice(l: Ledger, mid: Ledger, after: Ledger, p: Path)
    requires Rearranged(l, mid, p) && Rearranged(mid, after, p)
    ensures Rearranged(l, after, p)
  {
    forall r | InLedger(after, p, r) ensures exists s :: InLedger(l, p, s) && SameRun(r, s) {
      var s :| InLedger(mid, p, s) && SameRun(r, s);
      var t :| InLedger(l, p, t) && SameRun(s, t);
      assert SameRun(r, t);
    }
  }

  lemma SameRecords(l: Ledger, after: Ledger, p: Path)
    requires after.log.generation == l.log.generation && forall r :: InLedger(after, p, r) ==> InLedger(l, p, r)
    ensures Rearranged(l, after, p)
  {
    forall r | InLedger(after, p, r) ensures exists s :: InLedger(l, p, s) && SameRun(r, s) {
      assert SameRun(r, r);
    }
  }

  lemma SuspendRearranges(l: Ledger, p: Path, unresolved: bool, now: real)
    ensures Rearranged(l, Suspend(l, p, unresolved, now), p)
  {
    var after := Suspend(l, p, unresolved, now);
    if p in l.current {
      var back := Suspended(l.current[p], unresolved, now);
      var queue := HeldAt(l, p) + [back];
      forall r | InLedger(after, p, r) ensures exists s :: InLedger(l, p, s) && SameRun(r, s) {
        assert r in queue;
        if r == back {
          assert InLedger(l, p, l.current[p]) && SameRun(r, l.current[p]);
        } else {
          assert InLedger(l, p, r) && SameRun(r, r);
        }
      }
    } else {
      SameRecords(l, after, p);
    }
  }

  lemma {:induction false} StayingIsIn(queue: seq<Record>, key: Key)
    ensures forall r :: r in Staying(queue, key) ==> r in queue
  {
    if queue != [] {
      StayingIsIn(queue[1..], key);
    }
  }

  lemma ReleaseRearranges(l: Ledger, p: Path, key: Key)
    ensures Rearranged(l, Release(l, p, key), p)
  {
    StayingIsIn(HeldAt(l, p), key);
    SameRecords(l, Release(l, p, key), p);
  }

  lemma ResumeComesFrom(l: Ledger, p: Path, d: Demand, force: Option<nat>)
    requires d.Want?
    ensures ComesFrom(l, Resume(l, p, d, force), p)
  {
    var after, queue := Resume(l, p, d, force), HeldAt(l, p);
    var i := FirstMatch(queue, d.key, force);
    forall r | InLedger(after, p, r) && r.generation != l.log.generation + 1
      ensures exists s :: InLedger(l, p, s) && SameRun(r, s) {
      if i < |queue| && p in after.current && r == after.current[p] {
        assert queue[i] in queue && InLedger(l, p, queue[i]) && SameRun(r, queue[i]);
      } else {
        assert InLedger(l, p, r) && SameRun(r, r);
      }
    }
  }

  lemma DeriveComesFrom(l: Ledger, p: Path, d: Demand, now: real)
    ensures ComesFrom(l, Derive(l, p, d, now), p)
  {
    var after := Derive(l, p, d, now);
    hide Rearranged, ComesFrom, Suspend, Release, Resume, NeedsRerun;
    if d.Unavailable? {
      var mid := Suspend(l, p, d.unresolved, now);
      SuspendRearranges(l, p, d.unresolved, now);
      Unmoved(mid, after, p);
      Then(l, mid, after, p);
    } else {
      var released := Release(l, p, d.key);
      var wanted := released.(demand := released.demand[p := d.key]);
      ReleaseRearranges(l, p, d.key);
      ReleaseShows(l, p, d.key);
      UnmovedThere(released, wanted, p);
      RearrangedTwice(l, released, wanted, p);
      var again := p in l.current && l.current[p].key == d.key;
      if again && !NeedsRerun(l.current[p], d) {
        Unmoved(wanted, after, p);
        Then(l, wanted, after, p);
      } else {
        var mid := Suspend(wanted, p, d.unresolved, now);
        SuspendRearranges(wanted, p, d.unresolved, now);
        RearrangedTwice(l, wanted, mid, p);
        ResumeComesFrom(mid, p, d, if again then Some(l.current[p].generation) else None);
        Then(l, mid, after, p);
      }
    }
  }

  lemma UnmovedThere(l: Ledger, after: Ledger, p: Path)
    requires after.current == l.current && after.held == l.held && after.log == l.log
    ensures Rearranged(l, after, p)
  {
    SameRecords(l, after, p);
  }

  lemma Unmoved(l: Ledger, after: Ledger, p: Path)
    requires after.current == l.current && after.held == l.held && after.log == l.log
    ensures ComesFrom(l, after, p)
  {
    forall r | InLedger(after, p, r) ensures exists s :: InLedger(l, p, s) && SameRun(r, s) {
      assert InLedger(l, p, r) && SameRun(r, r);
    }
  }

  lemma DeriveKeepsFlags(l: Ledger, p: Path, d: Demand, now: real, g: nat, scratch: bool)
    requires Kept(l) && Flagged(l, g, scratch) && g <= l.log.generation
    ensures Flagged(Derive(l, p, d, now), g, scratch)
  {
    var after := Derive(l, p, d, now);
    DeriveComesFrom(l, p, d, now);
    DeriveAt(l, p, d, now);
    hide Derive, Kept;
    forall q, r | InLedger(after, q, r) && r.generation == g ensures r.scratch == scratch {
      if q == p {
        var s :| InLedger(l, p, s) && SameRun(r, s);
      } else {
        assert InLedger(l, q, r);
      }
    }
  }

  lemma FewerKeepFlags(l: Ledger, after: Ledger, g: nat, scratch: bool)
    requires Flagged(l, g, scratch)
    requires forall p, r :: InLedger(after, p, r) ==> exists s :: InLedger(l, p, s) && SameRun(r, s)
    ensures Flagged(after, g, scratch)
  {
    forall p, r | InLedger(after, p, r) && r.generation == g ensures r.scratch == scratch {
      var s :| InLedger(l, p, s) && SameRun(r, s);
    }
  }

  lemma SubsetKeepsFlags(l: Ledger, after: Ledger, g: nat, scratch: bool)
    requires Flagged(l, g, scratch) && forall p, r :: InLedger(after, p, r) ==> InLedger(l, p, r)
    ensures Flagged(after, g, scratch)
  {
  }

  lemma EnteredKeepsFlags(l: Ledger, m: Completion, g: nat, scratch: bool)
    requires Flagged(l, g, scratch)
    ensures Flagged(Entered(l, m), g, scratch)
  {
    var after := Entered(l, m);
    forall p, r | InLedger(after, p, r) ensures exists s :: InLedger(l, p, s) && SameRun(r, s) {
      if p in after.current && r == after.current[p] {
        assert InLedger(l, p, l.current[p]) && SameRun(r, l.current[p]);
      } else {
        var i :| 0 <= i < |HeldAt(after, p)| && HeldAt(after, p)[i] == r;
        assert HeldAt(l, p)[i] in HeldAt(l, p);
        assert InLedger(l, p, HeldAt(l, p)[i]) && SameRun(r, HeldAt(l, p)[i]);
      }
    }
    FewerKeepFlags(l, after, g, scratch);
  }

  lemma {:induction false} UnexpiredIsIn(queue: seq<Record>, h: nat, now: real)
    ensures forall r :: r in Unexpired(queue, h, now) ==> r in queue
  {
    if queue != [] {
      UnexpiredIsIn(queue[1..], h, now);
    }
  }

  lemma NextKeepsFlags(l: Ledger, e: Event, g: nat, scratch: bool)
    requires Sound(l) && Possible(l, e) && Flagged(l, g, scratch) && g <= l.log.generation
    ensures Flagged(Next(l, e), g, scratch) && l.log.generation <= Next(l, e).log.generation
  {
    hide Derive, PathSound, Displays;
    match e {
      case Derived(p, d, now) =>
        DeriveKeepsFlags(l, p, d, now, g, scratch);
        DeriveGrows(l, p, d, now);
      case Cleared(p, d, now) =>
        var without := WithoutRun(l, p);
        WithoutRunKeeps(l, p);
        SubsetKeepsFlags(l, without, g, scratch);
        DeriveKeepsFlags(without, p, d, now, g, scratch);
        DeriveGrows(without, p, d, now);
      case Finished(m, last, d, now) =>
        var taken := if last then l.(log := l.log.(mail := l.log.mail - {m})) else l;
        SubsetKeepsFlags(l, taken, g, scratch);
        EnteredKeeps(l, m, last);
        EnteredKeepsFlags(taken, m, g, scratch);
        DeriveKeepsFlags(Entered(taken, m), m.path, d, now, g, scratch);
        DeriveGrows(Entered(taken, m), m.path, d, now);
      case Expired(p, h, now) =>
        UnexpiredIsIn(HeldAt(l, p), h, now);
        SubsetKeepsFlags(l, Next(l, e), g, scratch);
      case _ =>
        SubsetKeepsFlags(l, Next(l, e), g, scratch);
    }
  }

  lemma DeriveGrows(l: Ledger, p: Path, d: Demand, now: real)
    ensures l.log.generation <= Derive(l, p, d, now).log.generation
  {
    SuspendLaunches(l, p, d.unresolved, now);
    if d.Want? {
      var released := Release(l, p, d.key).(demand := l.demand[p := d.key]);
      ReleaseShows(l, p, d.key);
      SuspendLaunches(released, p, d.unresolved, now);
      hide Release, Suspend, NeedsRerun, FirstMatch;
    }
  }

  lemma {:induction false} PlayedKeepsFlags(l: Ledger, events: seq<Event>, g: nat, scratch: bool)
    requires Sound(l) && Plays(l, events) && Flagged(l, g, scratch) && g <= l.log.generation
    ensures Flagged(Played(l, events), g, scratch)
    decreases |events|
  {
    hide Flagged, Sound, Next;
    if events != [] {
      NextKeepsFlags(l, events[0], g, scratch);
      NextKeeps(l, events[0]);
      PlayedKeepsFlags(Next(l, events[0]), events[1..], g, scratch);
    }
  }

  /** A derivation that launches a run launches it for scratch if it says so. */
  lemma LaunchIsFlagged(l: Ledger, p: Path, d: Demand, now: real)
    requires Sound(l) && d.Want? && Derive(l, p, d, now).log.launched != l.log.launched
    ensures var after, g := Derive(l, p, d, now), l.log.generation + 1;
            && p in after.current && after.current[p].generation == g == after.log.generation
            && Flagged(after, g, d.scratch)
  {
    var after, g := Derive(l, p, d, now), l.log.generation + 1;
    LaunchesIff(l, p, d, now);
    NextKeeps(l, Derived(p, d, now));
    LaunchedNow(l, p, d, now);
    assert Kept(after);
    hide Derive, Reuses;
    forall q, r | InLedger(after, q, r) && r.generation == g ensures r.scratch == d.scratch {
      assert PathSound(after, p) && PathSound(after, q);
      assert Genuine(after.log, p, after.current[p]) && Genuine(after.log, q, r);
      assert q == p;
      assert r in HeldAt(after, p) ==> Apart(after.log, r, after.current[p]);
    }
  }

  lemma LaunchedNow(l: Ledger, p: Path, d: Demand, now: real)
    requires d.Want? && Derive(l, p, d, now).log.launched != l.log.launched
    ensures var after := Derive(l, p, d, now);
            && p in after.current && after.current[p].generation == l.log.generation + 1 == after.log.generation
            && after.current[p].scratch == d.scratch
  {
    var released := Release(l, p, d.key).(demand := l.demand[p := d.key]);
    var again := p in l.current && l.current[p].key == d.key;
    ReleaseShows(l, p, d.key);
    SuspendLaunches(released, p, d.unresolved, now);
    ResumedNow(Suspend(released, p, d.unresolved, now), p, d,
      if again then Some(l.current[p].generation) else None);
    hide Release, Suspend, NeedsRerun, Resume;
  }

  lemma ResumedNow(l: Ledger, p: Path, d: Demand, force: Option<nat>)
    requires d.Want?
    ensures var after := Resume(l, p, d, force);
            after.log.launched != l.log.launched ==>
              && p in after.current && after.current[p].generation == l.log.generation + 1 == after.log.generation
              && after.current[p].scratch == d.scratch
  {
    hide FirstMatch;
  }

  /** A run that has brought its value goes on to be shown, by any derivation of its key; unless it was
      launched for scratch, and a holder that is not for scratch needs the value, and it is out of reach:
      then another run for the key takes its place. */
  lemma ScratchIsRunAgain(l: Ledger, p: Path, first: Demand, since: real, events: seq<Event>, d: Demand, now: real,
      v: nat)
    requires Sound(l) && first.Want? && Derive(l, p, first, since).log.launched != l.log.launched
    requires var begun := Derive(l, p, first, since);
             && Plays(begun, events)
             && var late := Played(begun, events);
                && p in late.current && late.current[p].generation == l.log.generation + 1
                && late.current[p].outcome.Some? && late.current[p].outcome.value.Value?
                && late.current[p].outcome.value.checksum == v
                && d.Want? && d.key == late.current[p].key
    ensures var late := Played(Derive(l, p, first, since), events);
            var after := Derive(late, p, d, now);
            && p in after.current && p in after.nodes && after.current[p].key == d.key
            && if first.scratch && d.wanted && d.missing then
                 after.nodes[p].Computing? && after.current[p].generation != l.log.generation + 1
               else
                 && after.nodes[p].Shows? && after.nodes[p].outcome == late.current[p].outcome.value
                 && after.current[p] == late.current[p] && after.log.launched == late.log.launched
  {
    var begun, g := Derive(l, p, first, since), l.log.generation + 1;
    var late := Played(begun, events);
    LaunchIsFlagged(l, p, first, since);
    NextKeeps(l, Derived(p, first, since));
    hide Flagged, Sound;
    PlayedKeepsFlags(begun, events, g, first.scratch);
    assert late.current[p].scratch == first.scratch by { FlagOf(late, p, g, first.scratch); }
    EveryRunIsSound(begun, events);
    hide Derive, Plays, Played;
    RunAgain(late, p, d, now);
  }

  lemma FlagOf(l: Ledger, p: Path, g: nat, scratch: bool)
    requires Flagged(l, g, scratch) && p in l.current && l.current[p].generation == g
    ensures l.current[p].scratch == scratch
  {
    assert InLedger(l, p, l.current[p]);
  }

  lemma RunAgain(l: Ledger, p: Path, d: Demand, now: real)
    requires Sound(l) && p in l.current && l.current[p].outcome.Some? && l.current[p].outcome.value.Value?
    requires d.Want? && d.key == l.current[p].key
    ensures var after := Derive(l, p, d, now);
            && p in after.current && p in after.nodes && after.current[p].key == d.key
            && if l.current[p].scratch && d.wanted && d.missing then
                 after.nodes[p].Computing? && after.current[p].generation != l.current[p].generation
               else
                 && after.nodes[p].Shows? && after.nodes[p].outcome == l.current[p].outcome.value
                 && after.current[p] == l.current[p] && after.log.launched == l.log.launched
  {
    var released := Release(l, p, d.key).(demand := l.demand[p := d.key]);
    ReleaseShows(l, p, d.key);
    LaunchesIff(l, p, d, now);
    if l.current[p].scratch && d.wanted && d.missing {
      SuspendLaunches(released, p, d.unresolved, now);
      SuspendShows(released, p, d.unresolved, now);
      assert Books(l.log) && Genuine(l.log, p, l.current[p]) by { assert PathSound(l, p); }
      AnotherRun(Suspend(released, p, d.unresolved, now), p, d, l.current[p].generation) by {
        assert Suspend(released, p, d.unresolved, now).log.generation == l.log.generation;
      }
    }
    hide Release, Suspend, Resume, Reuses, Sound;
  }

  /** Forced past one generation, the path resumes with another. */
  lemma AnotherRun(l: Ledger, p: Path, d: Demand, g: nat)
    requires d.Want? && g <= l.log.generation
    ensures var after := Resume(l, p, d, Some(g));
            && p in after.current && after.current[p].generation != g && p in after.nodes && after.nodes[p].Computing?
  {
  }
}
