/** Where the registry's operations fall short of what one might expect of them. */
module ShareFailures {
  import opened Wrappers
  import opened ShareRegistry
  import opened ShareTables
  import opened ShareSteps
  import opened ShareRuns
  import opened ShareServers

  // ----- an orphan -----

  /** One share at a nested route, held. */
  function HeldShare(): State {
    var reg := Registration(Key(1, 2), false, 7, false, {}, false, false, true, None, None, None, 0, 0, None);
    State(map[0 := reg], map[1 := Namespace(7, false, true, false, None)], map[Key(1, 2) := 0], map[],
      map[Key(1, 2) := 0],
          {}, map[], 0, 1, map[])
  }

  const NESTED_SHARE: Ask := Ask(Key(1, 2), false, 7, {}, false)
  const TOP_SHARE: Ask := Ask(Key(1, 2), true, 7, {}, false)

  lemma HeldShareComes(now: real)
    ensures Reserve(EMPTY, NESTED_SHARE, now).Done?
    ensures HoldOne(Reserve(EMPTY, NESTED_SHARE, now).state, 0) == HeldShare()
  {
    assert !Conflict(EMPTY, Key(1, 2), false, 7, {}, {}, now);
    var s := Reserve(EMPTY, NESTED_SHARE, now).state;
    assert s.regs == map[0 := Drafted(EMPTY, NESTED_SHARE)];
    assert s.namespaces == map[1 := Namespace(7, false, true, false, None)];
  }

  lemma HeldShareIsReached(now: real)
    ensures Reserve(EMPTY, NESTED_SHARE, now).Done?
    ensures HoldOne(Reserve(EMPTY, NESTED_SHARE, now).state, 0) == HeldShare()
    ensures Sound(HeldShare())
  {
    HeldShareComes(now);
    hide Reserve, HoldOne, Sound;
    EmptyIsSound();
    NextIsSound(EMPTY, Reserving(NESTED_SHARE, now));
    NextIsSound(Reserve(EMPTY, NESTED_SHARE, now).state, Holding(0));
  }

  lemma HeldShareIsCoherent()
    ensures Coherent(HeldShare())
  {
  }

  /** Moving a held share to the top level at once leaves its old route answering: after this run
      of three steps the tables disagree. */
  lemma MovingToTheTopOrphans(now: real)
    ensures var held := HoldOne(Reserve(EMPTY, NESTED_SHARE, now).state, 0);
            && Sound(held) && Coherent(held) && Reserve(held, TOP_SHARE, now).Done?
            && Sound(Reserve(held, TOP_SHARE, now).state) && !Coherent(Reserve(held, TOP_SHARE, now).state)
  {
    HeldShareIsReached(now);
    assert !Conflict(HeldShare(), Key(1, 2), true, 7, {}, {}, now);
    assert Orphans(HeldShare(), Key(1, 2), true);
    assert Reserve(HeldShare(), TOP_SHARE, now).Done?;
    assert Coherent(HeldShare()) by { HeldShareIsCoherent(); }
    hide HoldOne, Reserve, Sound, Linked;
    ReserveIsSound(HeldShare(), TOP_SHARE, now);
    DirectReserveCoherentIff(HeldShare(), TOP_SHARE, now);
  }

  // ----- a commit that fails half-way -----

  predicate AllThereTo(s: State, batch: seq<Id>, i: nat)
    requires i < |batch|
  {
    forall j :: 0 <= j <= i ==> batch[j] in s.regs && s.regs[batch[j]].key.ns in s.namespaces
  }

  /** A reservation of the batch, before any whose namespace is gone, takes a namespace over. */
  predicate TakesOver(s: State, batch: seq<Id>, now: real) {
    exists i :: 0 <= i < |batch| && AllThereTo(s, batch, i)
                && CanTakeOver(s, s.regs[batch[i]].key.ns, s.regs[batch[i]].owner, now)
  }

  lemma {:induction false} TakenStaysTaken(s: State, batch: seq<Id>, now: real, ns: Name)
    requires ns in s.namespaces && s.namespaces[ns].ownerActive
    ensures var t := TakeNamespaces(s, batch, now).state;
            ns in t.namespaces && t.namespaces[ns].ownerActive
    decreases |batch|
  {
    if batch != [] && batch[0] in s.regs && s.regs[batch[0]].key.ns in s.namespaces {
      TakenStaysTaken(TakenOver(s, s.regs[batch[0]].key.ns, s.regs[batch[0]].owner, now), batch[1..], now, ns);
    }
  }

  lemma {:induction false} TakingChangesIff(s: State, batch: seq<Id>, now: real)
    requires forall i :: 0 <= i < |batch| ==> batch[i] in s.regs
    ensures TakeNamespaces(s, batch, now).state == s <==> !TakesOver(s, batch, now)
    decreases |batch|
  {
    if batch != [] && s.regs[batch[0]].key.ns in s.namespaces {
      var ns, owner := s.regs[batch[0]].key.ns, s.regs[batch[0]].owner;
      if CanTakeOver(s, ns, owner, now) {
        assert AllThereTo(s, batch, 0);
        TakenStaysTaken(TakenOver(s, ns, owner, now), batch[1..], now, ns);
      } else {
        TakingChangesIff(s, batch[1..], now);
        RestTakesOver(s, batch, now);
      }
    }
  }

  lemma RestTakesOver(s: State, batch: seq<Id>, now: real)
    requires batch != [] && batch[0] in s.regs && s.regs[batch[0]].key.ns in s.namespaces
    requires !CanTakeOver(s, s.regs[batch[0]].key.ns, s.regs[batch[0]].owner, now)
    ensures TakesOver(s, batch, now) <==> TakesOver(s, batch[1..], now)
  {
    var rest := batch[1..];
    hide CanTakeOver;
    if TakesOver(s, batch, now) {
      var i :| 0 <= i < |batch| && AllThereTo(s, batch, i)
        && CanTakeOver(s, s.regs[batch[i]].key.ns, s.regs[batch[i]].owner, now);
      assert forall j :: 0 <= j <= i - 1 ==> rest[j] == batch[j + 1];
      assert AllThereTo(s, rest, i - 1);
    }
    if TakesOver(s, rest, now) {
      var i :| 0 <= i < |rest| && AllThereTo(s, rest, i)
        && CanTakeOver(s, s.regs[rest[i]].key.ns, s.regs[rest[i]].owner, now);
      assert forall j :: 1 <= j <= i + 1 ==> batch[j] == rest[j - 1];
      assert AllThereTo(s, batch, i + 1);
    }
  }

  /** A commit that finds a namespace gone leaves the whole state as it was exactly when no
      reservation before that one takes a namespace over. */
  lemma GoneCommitLeavesAllIff(s: State, batch: seq<Id>, now: real)
    requires Commit(s, batch, now).Raised? && Commit(s, batch, now).error == NamespaceGone
    ensures Commit(s, batch, now).state == s <==> !TakesOver(s, batch, now)
  {
    var all := set i | i in batch;
    hide Conflict, TakesOver, TakeNamespaces;
    ProblemIsNotGone(s, batch, all, now);
    NoProblem(s, batch, all, now);
    assert forall i :: 0 <= i < |batch| ==> StagedHere(s, batch[i]);
    TakingChangesIff(s, batch, now);
  }

  lemma {:induction false} ProblemIsNotGone(s: State, batch: seq<Id>, all: set<Id>, now: real)
    ensures FirstProblem(s, batch, all, now) != Some(NamespaceGone)
  {
    hide Conflict, StagedHere;
    if batch != [] {
      ProblemIsNotGone(s, batch[1..], all, now);
    }
  }

  // ----- one such run -----

  const FIRST := Key(1, 2)
  const SECOND := Key(2, 3)

  function Serve(key: Key): Event { Reserving(Ask(key, false, 7, {}, false), 0.0) }

  function Stage(key: Key): Event { Reserving(Ask(key, false, 8, {}, true), 5.0) }

  /** An owner leaves two namespaces held, one for long and one for a short time. A newcomer's
      reservations are staged in both, and the short hold lapses. */
  function LapsingRun(): seq<Event> {
    [Serve(FIRST), Unregistering(0), HoldingAll(1, 7, 100.0)]
    + [Serve(SECOND), Unregistering(1), HoldingAll(2, 7, 10.0)]
    + [Stage(FIRST), Stage(SECOND), Expiring(2, 11.0, [])]
  }

  function Closed(key: Key): Registration {
    Registration(key, false, 7, false, {}, false, true, false, None, None, None, 0, 0, None)
  }

  function Staged(key: Key): Registration {
    Registration(key, false, 8, true, {}, false, false, false, None, None, None, 0, 0, None)
  }

  function HeldUntil(deadline: real): Namespace { Namespace(7, false, false, false, Some(deadline)) }

  /** Nothing is published. */
  function Unpublished(regs: map<Id, Registration>, namespaces: map<Name, Namespace>, staged: set<Id>,
                       floors: map<Route, nat>, next: Id): State {
    State(regs, namespaces, map[], map[], map[], staged, floors, 0, next, map[])
  }

  function Serving(s: State, key: Key): State {
    State(s.regs[s.next := Closed(key).(closed := false)],
      s.namespaces[key.ns := Namespace(7, false, true, false, None)],
          map[key := s.next], map[], map[key := s.next], {}, s.floors, 0, s.next + 1, map[])
  }

  ghost predicate Deserving(s: State, key: Key) {
    && s == Unpublished(s.regs, s.namespaces, {}, s.floors, s.next) && key.ns !in s.namespaces
    && s.next !in s.regs && Floor(s, Within(key)) == 0
  }

  lemma ServesFresh(s: State, key: Key)
    requires Deserving(s, key)
    ensures Reserve(s, Ask(key, false, 7, {}, false), 0.0) == Done(Serving(s, key))
  {
    var a := Ask(key, false, 7, {}, false);
    assert !Conflict(s, key, false, 7, {}, {}, 0.0);
    var c := Claimed(s, a).(next := s.next + 1);
    assert HeldFor(c, key, false) == None;
    assert !CanTakeOver(c, key.ns, 7, 0.0);
    assert Published(c, s.next, Drafted(s, a), 0.0) == Listed(c, s.next, Drafted(s, a));
    hide Conflict, HeldFor, Published;
  }

  lemma Withdraws(s: State, key: Key)
    requires Deserving(s, key)
    ensures Remove(Serving(s, key), s.next) ==
            Unpublished(s.regs[s.next := Closed(key)], s.namespaces[key.ns := Namespace(7, false, true, false, None)],
              {},
                        s.floors[Within(key) := 0], s.next + 1)
  {
    var v := Serving(s, key);
    assert v.regs[s.next := Closed(key)] == s.regs[s.next := Closed(key)];
    assert Floor(v, Within(key)) == 0;
  }

  function LeftBehind(s: State, key: Key, deadline: real): State {
    Unpublished(s.regs[s.next := Closed(key)], s.namespaces[key.ns := HeldUntil(deadline)], {},
                s.floors[Within(key) := 0], s.next + 1)
  }

  lemma HoldsOn(s: State, key: Key, deadline: real)
    requires Deserving(s, key)
    ensures HoldNamespace(Remove(Serving(s, key), s.next), key.ns, 7, deadline) == LeftBehind(s, key, deadline)
  {
    Withdraws(s, key);
    hide Remove, Serving;
  }

  /** The short hold has lapsed. */
  function Lapsing(): State {
    Unpublished(map[0 := Closed(FIRST), 1 := Closed(SECOND), 2 := Staged(FIRST), 3 := Staged(SECOND)],
                map[1 := HeldUntil(100.0)], {2, 3}, map[Within(FIRST) := 0, Within(SECOND) := 0], 4)
  }

  function TwoHeld(): State {
    Unpublished(map[0 := Closed(FIRST), 1 := Closed(SECOND)], map[1 := HeldUntil(100.0), 2 := HeldUntil(10.0)], {},
                map[Within(FIRST) := 0, Within(SECOND) := 0], 2)
  }

  function OneStaged(): State {
    TwoHeld().(regs := TwoHeld().regs[2 := Staged(FIRST)], staged := {2}, next := 3)
  }

  function TwoStaged(): State {
    OneStaged().(regs := OneStaged().regs[3 := Staged(SECOND)], staged := {2, 3}, next := 4)
  }

  lemma StagesOne()
    ensures Reserve(TwoHeld(), Ask(FIRST, false, 8, {}, true), 5.0) == Done(OneStaged())
  {
    assert !Conflict(TwoHeld(), FIRST, false, 8, {}, {}, 5.0);
    hide Conflict;
  }

  lemma StagesTwo()
    ensures Reserve(OneStaged(), Ask(SECOND, false, 8, {}, true), 5.0) == Done(TwoStaged())
  {
    assert !Conflict(OneStaged(), SECOND, false, 8, {}, {}, 5.0);
    hide Conflict;
  }

  lemma ShortHoldLapses()
    ensures Expire(TwoStaged(), 2, 11.0, []) == Lapsing()
    ensures forall id: Id :: id in TwoStaged().regs ==> !Lapsed(TwoStaged(), id, 2, 11.0)
  {
    assert TwoStaged().regs == Lapsing().regs;
    assert TwoStaged().namespaces - {2} == Lapsing().namespaces;
  }

  lemma HoldsTwo()
    ensures LeftBehind(LeftBehind(EMPTY, FIRST, 100.0), SECOND, 10.0) == TwoHeld()
    ensures Deserving(EMPTY, FIRST) && Deserving(LeftBehind(EMPTY, FIRST, 100.0), SECOND)
  {
  }

  lemma {:induction false} PlayedOn(s: State, a: seq<Event>, b: seq<Event>)
    ensures Played(s, a + b) == Played(Played(s, a), b)
    ensures Plays(s, a) && Plays(Played(s, a), b) ==> Plays(s, a + b)
    decreases |a|
  {
    hide Next, Possible;
    if a == [] {
      assert a + b == b;
    } else {
      assert (a + b)[0] == a[0] && (a + b)[1..] == a[1..] + b;
      PlayedOn(Next(s, a[0]), a[1..], b);
    }
  }

  lemma ThreePlayed(s: State, a: Event, b: Event, c: Event)
    requires Possible(s, a) && Possible(Next(s, a), b) && Possible(Next(Next(s, a), b), c)
    ensures Plays(s, [a, b, c]) && Played(s, [a, b, c]) == Next(Next(Next(s, a), b), c)
  {
    hide Next, Possible;
    assert [a, b, c][1..] == [b, c] && [b, c][1..] == [c] && [c][1..] == [];
    assert Played(Next(Next(s, a), b), [c]) == Next(Next(Next(s, a), b), c);
    assert Plays(Next(Next(s, a), b), [c]);
  }

  lemma ServesNext(s: State, key: Key)
    requires Deserving(s, key)
    ensures Possible(s, Serve(key)) && Next(s, Serve(key)) == Serving(s, key)
  {
    ServesFresh(s, key);
    hide Reserve, Serving, Deserving;
  }

  lemma LeavesNext(s: State, key: Key, deadline: real)
    requires Deserving(s, key)
    ensures var served := Serving(s, key);
            && Possible(served, Unregistering(s.next))
            && Possible(Next(served, Unregistering(s.next)), HoldingAll(key.ns, 7, deadline))
            && Next(Next(served, Unregistering(s.next)), HoldingAll(key.ns, 7, deadline)) ==
               LeftBehind(s, key, deadline)
  {
    HoldsOn(s, key, deadline);
    hide Remove, Serving, Deserving, HoldNamespace, LeftBehind;
  }

  lemma ServesAndLeaves(s: State, key: Key, deadline: real)
    requires Deserving(s, key)
    ensures var events := [Serve(key), Unregistering(s.next), HoldingAll(key.ns, 7, deadline)];
            Plays(s, events) && Played(s, events) == LeftBehind(s, key, deadline)
  {
    ServesNext(s, key);
    LeavesNext(s, key, deadline);
    hide *;
    ThreePlayed(s, Serve(key), Unregistering(s.next), HoldingAll(key.ns, 7, deadline));
  }

  lemma StagesAndLapses()
    ensures var events := [Stage(FIRST), Stage(SECOND), Expiring(2, 11.0, [])];
            Plays(TwoHeld(), events) && Played(TwoHeld(), events) == Lapsing()
  {
    StagesOne();
    StagesTwo();
    ShortHoldLapses();
    hide Reserve, Expire, TwoHeld, OneStaged, TwoStaged, Lapsing, Lapsed;
    ThreePlayed(TwoHeld(), Stage(FIRST), Stage(SECOND), Expiring(2, 11.0, []));
  }

  lemma LapsingIsReached()
    ensures Plays(EMPTY, LapsingRun()) && Played(EMPTY, LapsingRun()) == Lapsing()
  {
    HoldsTwo();
    ServesAndLeaves(EMPTY, FIRST, 100.0);
    var mid := LeftBehind(EMPTY, FIRST, 100.0);
    assert EMPTY.next == 0 && mid.next == 1 && FIRST.ns == 1 && SECOND.ns == 2;
    ServesAndLeaves(mid, SECOND, 10.0);
    StagesAndLapses();
    hide Plays, Played, LeftBehind, TwoHeld, Lapsing, Deserving;
    var a := [Serve(FIRST), Unregistering(0), HoldingAll(1, 7, 100.0)];
    var b := [Serve(SECOND), Unregistering(1), HoldingAll(2, 7, 10.0)];
    var c := [Stage(FIRST), Stage(SECOND), Expiring(2, 11.0, [])];
    PlayedOn(EMPTY, a, b);
    PlayedOn(EMPTY, a + b, c);
  }

  lemma LapsingProblems()
    ensures FirstProblem(Lapsing(), [2, 3], {2, 3}, 12.0) == None && Disjoint(Lapsing(), [2, 3])
  {
    var s := Lapsing();
    assert !Conflict(s, FIRST, false, 8, {}, {2, 3}, 12.0);
    assert !Conflict(s, SECOND, false, 8, {}, {2, 3}, 12.0);
    assert StagedHere(s, 2) && StagedHere(s, 3);
    hide Conflict;
    assert FirstProblem(s, [3], {2, 3}, 12.0) == FirstProblem(s, [], {2, 3}, 12.0);
    assert [2, 3][1..] == [3];
  }

  function NewcomersFirst(): State {
    Lapsing().(namespaces := map[1 := Namespace(8, false, true, false, None)])
  }

  lemma LapsingTakes()
    ensures TakeNamespaces(Lapsing(), [2, 3], 12.0) == Raised(NamespaceGone, NewcomersFirst())
  {
    var s := Lapsing();
    assert TakenOver(s, 1, 8, 12.0) == NewcomersFirst();
    assert [2, 3][1..] == [3];
    assert TakeNamespaces(NewcomersFirst(), [3], 12.0) == Raised(NamespaceGone, NewcomersFirst());
  }

  lemma LapsingCommits()
    ensures Commit(Lapsing(), [2, 3], 12.0) == Raised(NamespaceGone, NewcomersFirst())
  {
    LapsingProblems();
    LapsingTakes();
    assert Ids([2, 3]) == {2, 3};
    hide FirstProblem, Disjoint, TakeNamespaces, Lapsing, NewcomersFirst, Commit, Ids;
    UnfoldCommit(Lapsing(), [2, 3], 12.0);
  }

  /** At the end of this run the commit of the two reservations fails for the namespace that
      lapsed, and by then the other namespace is the newcomer's. */
  lemma CommitFindsNamespaceGone()
    ensures Plays(EMPTY, LapsingRun())
    ensures var s := Played(EMPTY, LapsingRun());
            var after := Commit(s, [2, 3], 12.0);
            && Sound(s) && after.Raised? && after.error == NamespaceGone
            && 1 in s.namespaces && s.namespaces[1].owner == 7
            && 1 in after.state.namespaces && after.state.namespaces[1].owner == 8
  {
    LapsingIsReached();
    EmptyIsSound();
    hide Played, Plays, Sound, Commit;
    EveryRunIsSound(EMPTY, LapsingRun());
    LapsingCommits();
  }
}
