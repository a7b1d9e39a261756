/** When a joined cell that is blocked stays blocked, whatever facts still come in and whatever its
    sources make of them. */
module BlockedCells {
  import opened Wrappers
  import opened Derivation
  import opened DerivedCauses

  ghost predicate Grows(f: Facts, h: Facts) {
    forall k :: k in f ==> k in h && h[k] == f[k]
  }

  predicate AllLegal(runs: seq<Run>) {
    forall i :: 0 <= i < |runs| ==> runs[i].legal
  }

  /** The slot's own conversion is still to come: it lacks a fact, or its edge has not delivered and
      nothing ill-formed keeps it from doing so. */
  predicate Exposed(facts: Facts, states: States, slot: Slot) {
    var d := Delivers(facts, states, slot.edge);
    && slot.own != []
    && (if d.Ready? then SlotProgress(facts, states, slot).Stuck? else d.Pending? && AllLegal(slot.edge.runs))
  }

  /** What a state may become as facts come in: a value is final, and a node that has neither a value
      nor anything to wait for gets neither. */
  predicate Becomes(a: State, b: State) {
    && (a.Complete? ==> b == a)
    && (!a.Complete? && !Works(a) ==> !b.Complete? && !Works(b))
  }

  ghost predicate MovesOn(s: States, t: States, slots: seq<Slot>) {
    forall i :: 0 <= i < |slots| ==> Becomes(StateAt(s, slots[i].edge.source), StateAt(t, slots[i].edge.source))
  }

  lemma {:induction false} FollowSettled(f: Facts, h: Facts, c: Checksum, runs: seq<Run>)
    requires Grows(f, h)
    ensures !Follow(f, c, runs).Stuck? ==> Follow(h, c, runs) == Follow(f, c, runs)
    ensures Follow(f, c, runs).Stuck? && Follow(h, c, runs).Reached? ==> AllLegal(runs)
    decreases |runs|
  {
    if runs != [] && runs[0].legal {
      var k := Convert(runs[0].expression, c);
      if k in h && h[k].Value? {
        FollowSettled(f, h, h[k].checksum, runs[1..]);
        LegalReached(h, h[k].checksum, runs[1..]);
        assert AllLegal(runs[1..]) ==>
          forall i :: 0 <= i < |runs| ==> runs[i] == if i == 0 then runs[0] else runs[1..][i - 1];
      }
    }
  }

  lemma {:induction false} LegalReached(f: Facts, c: Checksum, runs: seq<Run>)
    ensures Follow(f, c, runs).Reached? ==> AllLegal(runs)
    decreases |runs|
  {
    if Follow(f, c, runs).Reached? && runs != [] {
      LegalReached(f, f[Convert(runs[0].expression, c)].checksum, runs[1..]);
      assert forall i :: 0 <= i < |runs| ==> runs[i] == if i == 0 then runs[0] else runs[1..][i - 1];
    }
  }

  // ----- a slot that is not exposed cannot fail -----

  lemma UnexposedHolds(f: Facts, h: Facts, s: States, t: States, slot: Slot)
    requires Grows(f, h) && Becomes(StateAt(s, slot.edge.source), StateAt(t, slot.edge.source))
    requires !Exposed(f, s, slot) && !SlotProgress(f, s, slot).Broke?
    ensures !Exposed(h, t, slot) && !SlotProgress(h, t, slot).Broke?
  {
    var a, b := StateAt(s, slot.edge.source), StateAt(t, slot.edge.source);
    if slot.edge.wiring.Sound? && b.Complete? {
      var p := Follow(h, b.checksum, slot.edge.runs);
      LegalReached(h, b.checksum, slot.edge.runs);
      if a.Complete? {
        FollowSettled(f, h, a.checksum, slot.edge.runs);
        if p.Reached? {
          FollowSettled(f, h, p.checksum, slot.own);
        }
      }
    }
  }

  /** An edge that neither has delivered nor ever may does not come to do so. */
  lemma DeadStays(f: Facts, h: Facts, s: States, t: States, edge: Edge)
    requires Grows(f, h) && Becomes(StateAt(s, edge.source), StateAt(t, edge.source))
    requires !Delivers(f, s, edge).Ready? && !Delivers(f, s, edge).Pending?
    ensures !Delivers(h, t, edge).Ready? && !Delivers(h, t, edge).Pending?
  {
    var a := StateAt(s, edge.source);
    if edge.wiring.Sound? && a.Complete? {
      FollowSettled(f, h, a.checksum, edge.runs);
    }
  }

  lemma ReasonStays(f: Facts, h: Facts, s: States, t: States, slot: Slot)
    requires Grows(f, h) && Becomes(StateAt(s, slot.edge.source), StateAt(t, slot.edge.source))
    requires SlotReason(Delivers(f, s, slot.edge)).Some?
    ensures SlotReason(Delivers(h, t, slot.edge)).Some? && !SlotProgress(h, t, slot).Reached?
  {
    DeadStays(f, h, s, t, slot.edge);
    assert Delivers(h, t, slot.edge).Awry? <==> slot.edge.wiring.Own?;
    hide Follow;
  }

  lemma {:induction false} SomeReasonSlot(facts: Facts, states: States, slots: seq<Slot>)
    ensures Reasons(facts, states, slots) != map[] <==>
            exists i :: 0 <= i < |slots| && SlotReason(Delivers(facts, states, slots[i].edge)).Some?
  {
    hide Delivers, SlotReason;
    if slots != [] {
      SomeReasonSlot(facts, states, slots[1..]);
      var r := SlotReason(Delivers(facts, states, slots[0].edge));
      if r.Some? {
        assert slots[0].name in Reasons(facts, states, slots);
      } else {
        assert Reasons(facts, states, slots) == Reasons(facts, states, slots[1..]);
        assert forall i :: 1 <= i < |slots| ==> slots[i] == slots[1..][i - 1];
        if i :| 0 <= i < |slots| - 1 && SlotReason(Delivers(facts, states, slots[1..][i].edge)).Some? {
          assert slots[i + 1] == slots[1..][i];
        }
      }
    }
  }

  lemma AwryIsStatic(f: Facts, h: Facts, s: States, t: States, slots: seq<Slot>)
    ensures AnyAwry(f, s, slots) == AnyAwry(h, t, slots)
  {
    forall i | 0 <= i < |slots|
      ensures Delivers(f, s, slots[i].edge).Awry? == Delivers(h, t, slots[i].edge).Awry? {
      hide Follow;
    }
    hide Delivers;
  }

  lemma StaysBlocked(f: Facts, h: Facts, s: States, t: States, root: Stem, own: seq<Run>, slots: seq<Slot>)
    requires Grows(f, h) && MovesOn(s, t, slots) && JoinedState(f, s, root, own, slots).BlockedAt?
    requires forall i :: 0 <= i < |slots| ==> !Exposed(f, s, slots[i])
    ensures JoinedState(h, t, root, own, slots).BlockedAt?
    ensures forall i :: 0 <= i < |slots| ==> !Exposed(h, t, slots[i])
  {
    FaultIsNotReached(f, s, slots);
    FaultIsNotReached(h, t, slots);
    SomeReasonSlot(f, s, slots);
    SomeReasonSlot(h, t, slots);
    AwryIsStatic(f, h, s, t, slots);
    hide Exposed, SlotProgress, Delivers, SlotReason, SlotFault, Reasons, Becomes;
    forall i | 0 <= i < |slots| ensures !SlotProgress(h, t, slots[i]).Broke? && !Exposed(h, t, slots[i]) {
      UnexposedHolds(f, h, s, t, slots[i]);
    }
    var i :| 0 <= i < |slots| && SlotReason(Delivers(f, s, slots[i].edge)).Some?;
    ReasonStays(f, h, s, t, slots[i]);
  }

  // ----- an exposed one can -----

  lemma {:induction false} Bounded(s: set<nat>) returns (b: nat)
    ensures forall x: nat :: x in s ==> x < b
    decreases s
  {
    if s == {} {
      b := 0;
    } else {
      var x :| x in s;
      b := Bounded(s - {x});
      b := if x < b then b else x + 1;
      assert forall y: nat :: y in s ==> y == x || y in s - {x};
    }
  }

  /** A checksum that no fact is about. */
  lemma Unused(f: Facts, c: Checksum) returns (v: Checksum)
    ensures v != c && forall e :: Convert(e, v) !in f
  {
    var s := set k | k in f && k.Convert? :: k.checksum;
    v := Bounded(s + {c});
    assert forall k :: k in f && k.Convert? ==> k.checksum in s;
    assert forall e: Expression :: Convert(e, v).checksum == v;
  }

  lemma {:induction false} CanBreak(f: Facts, c: Checksum, runs: seq<Run>) returns (h: Facts)
    requires Follow(f, c, runs).Stuck?
    ensures Grows(f, h) && Follow(h, c, runs).Broke?
    decreases |runs|
  {
    var k := Convert(runs[0].expression, c);
    if k in f {
      h := CanBreak(f, f[k].checksum, runs[1..]);
    } else {
      h := f[k := Error(0)];
    }
  }

  lemma {:induction false} CanReachAndBreak(f: Facts, c: Checksum, runs: seq<Run>, own: seq<Run>) returns (h: Facts)
    requires Follow(f, c, runs).Stuck? && AllLegal(runs) && own != []
    ensures Grows(f, h) && Follow(h, c, runs).Reached? && Follow(h, Follow(h, c, runs).checksum, own).Broke?
    decreases |runs|
  {
    var k, rest := Convert(runs[0].expression, c), runs[1..];
    assert AllLegal(rest);
    if k in f {
      h := CanReachAndBreak(f, f[k].checksum, rest, own);
    } else {
      var v := Unused(f, c);
      var next := f[k := Value(v)];
      if rest == [] {
        if own[0].legal {
          assert Convert(own[0].expression, v) !in next;
          h := CanBreak(next, v, own);
        } else {
          h := next;
        }
        assert h[k] == Value(v) && Follow(h, v, rest) == Reached(v);
      } else {
        assert Convert(rest[0].expression, v) !in next;
        h := CanReachAndBreak(next, v, rest, own);
        assert h[k] == Value(v);
      }
    }
  }

  /** With the source's value known, the facts that make the slot fail. */
  lemma SlotCanBreak(f: Facts, states: States, slot: Slot) returns (h: Facts)
    requires Exposed(f, states, slot) && slot.edge.wiring.Sound? && StateAt(states, slot.edge.source).Complete?
    ensures Grows(f, h) && SlotProgress(h, states, slot).Broke?
  {
    var c := StateAt(states, slot.edge.source).checksum;
    match Follow(f, c, slot.edge.runs) {
      case Reached(v) =>
        h := CanBreak(f, v, slot.own);
        FollowSettled(f, h, c, slot.edge.runs);
      case Stuck =>
        h := CanReachAndBreak(f, c, slot.edge.runs, slot.own);
    }
  }

  /** A source that works may come to have a value that no fact is about yet. */
  lemma SourceCanArrive(f: Facts, s: States, slot: Slot) returns (h: Facts, t: States)
    requires Exposed(f, s, slot) && !StateAt(s, slot.edge.source).Complete?
    ensures Works(StateAt(s, slot.edge.source)) && slot.edge.wiring.Sound? && Grows(f, h)
    ensures SlotProgress(h, t, slot).Broke? && exists v :: t == s[slot.edge.source := Complete(v)]
  {
    var v := Unused(f, 0);
    t := s[slot.edge.source := Complete(v)];
    var runs, own := slot.edge.runs, slot.own;
    if runs == [] {
      assert Follow(f, v, runs) == Reached(v);
      if own[0].legal {
        assert Convert(own[0].expression, v) !in f;
        h := CanBreak(f, v, own);
      } else {
        h := f;
      }
      assert Follow(h, v, runs) == Reached(v);
    } else {
      assert Convert(runs[0].expression, v) !in f;
      h := CanReachAndBreak(f, v, runs, own);
    }
  }

  lemma ExposedCanFail(f: Facts, s: States, root: Stem, own: seq<Run>, slots: seq<Slot>, i: nat)
    requires i < |slots| && Exposed(f, s, slots[i])
    ensures exists h, t :: Grows(f, h) && MovesOn(s, t, slots) && JoinedState(h, t, root, own, slots).Failed?
  {
    var h, t;
    if StateAt(s, slots[i].edge.source).Complete? {
      t := s;
      h := SlotCanBreak(f, s, slots[i]);
    } else {
      h, t := SourceCanArrive(f, s, slots[i]);
    }
    assert MovesOn(s, t, slots);
    FaultIsNotReached(h, t, slots);
    assert JoinedState(h, t, root, own, slots).Failed?;
  }

  /** A blocked joined cell stays blocked under all facts to come, and whatever its sources become,
      exactly when no part's own conversion is still to come. */
  lemma BlockedStaysIff(f: Facts, s: States, root: Stem, own: seq<Run>, slots: seq<Slot>)
    requires JoinedState(f, s, root, own, slots).BlockedAt?
    ensures (forall h, t :: Grows(f, h) && MovesOn(s, t, slots) ==> JoinedState(h, t, root, own, slots).BlockedAt?)
            <==> forall i :: 0 <= i < |slots| ==> !Exposed(f, s, slots[i])
  {
    hide JoinedState, Exposed;
    if forall i :: 0 <= i < |slots| ==> !Exposed(f, s, slots[i]) {
      forall h, t | Grows(f, h) && MovesOn(s, t, slots) ensures JoinedState(h, t, root, own, slots).BlockedAt? {
        StaysBlocked(f, h, s, t, root, own, slots);
      }
    } else {
      var i :| 0 <= i < |slots| && Exposed(f, s, slots[i]);
      ExposedCanFail(f, s, root, own, slots, i);
    }
  }
}
