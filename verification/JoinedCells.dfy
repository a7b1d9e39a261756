/** A cell joined from parts: which values it joins, and what it shows while it cannot. */
module JoinedCells {
  import opened Wrappers
  import opened Dag
  import opened Derivation
  import opened EdgeRuns
  import opened InputValues
  import R = Recipes
  import F = Fusion

  // ----- the values that are joined -----

  /** What feeds a slot; a cell that is not deep has what arrives converted from the celltype
      `recorded`. */
  datatype Part = Part(feed: Feed, recorded: R.Celltype)

  ghost predicate PartFeeds(g: Wired, sem: Semantics, u: R.Celltype, slot: Slot, part: Part) {
    && FedBy(g, sem, slot.edge, part.feed)
    && Turns(g, slot.own, part.recorded, if R.IsDeep(u) then part.recorded else u)
  }

  /** The joined cell's slots are fed by these parts, and its own value is converted from `stem`. */
  ghost predicate JoinedFrom(g: Wired, sem: Semantics, body: Body, parts: seq<Part>, stem: R.Celltype) {
    && body.Joined? && |parts| == |body.slots|
    && (forall i :: 0 <= i < |parts| ==> PartFeeds(g, sem, body.celltype, body.slots[i], parts[i]))
    && Turns(g, body.own, stem, body.celltype)
  }

  /** What a part's own recipe and its slot's own conversion mean over its own source's value. */
  function PartValue(g: Wired, sem: Semantics, states: States, u: R.Celltype, part: Part): Outcome {
    var o := Meaning(g, sem, states, part.feed);
    if R.IsDeep(u) then o else F.Convert(sem, o, part.recorded, u)
  }

  /** One member for each slot, under the slot's name and with the slot's own value. */
  ghost predicate MembersMean(g: Wired, sem: Semantics, states: States, u: R.Celltype, slots: seq<Slot>,
      parts: seq<Part>, members: seq<Member>)
    requires |parts| == |slots|
  {
    && |members| == |slots|
    && forall i :: 0 <= i < |slots| ==>
         && slots[i].edge.wiring.Sound? && members[i].name == slots[i].name
         && PartValue(g, sem, states, u, parts[i]) == F.Got(members[i].checksum)
  }

  /** The cell's own value, converted, or none if it has none. */
  predicate StemMeans(sem: Semantics, stem: R.Celltype, u: R.Celltype, value: Option<Checksum>,
      root: Option<Checksum>) {
    match value
    case None => root.None?
    case Some(c) => root.Some? && F.Convert(sem, F.Got(c), stem, u) == F.Got(root.value)
  }

  /** The join of the cell's own value and its slots' values has been answered with `v`. */
  ghost predicate Joins(g: Wired, facts: Facts, sem: Semantics, states: States, body: Body, parts: seq<Part>,
      stem: R.Celltype, v: Checksum)
    requires JoinedFrom(g, sem, body, parts, stem)
  {
    exists root: Option<Checksum>, members: seq<Member> ::
      && MembersMean(g, sem, states, body.celltype, body.slots, parts, members)
      && StemMeans(sem, stem, body.celltype, body.root, root)
      && AnsweredWith(facts, Join(if body.celltype.Folder? then R.Deepfolder else body.celltype, root, members), v)
  }

  predicate AnsweredWith(facts: Facts, k: Key, v: Checksum) { k in facts && facts[k] == Value(v) }

  lemma SlotIff(g: Wired, facts: Facts, states: States, sem: Semantics, valid: Validity, u: R.Celltype, slot: Slot,
      part: Part, v: Checksum)
    requires Granted(g, facts, sem, valid) && PartFeeds(g, sem, u, slot, part)
    ensures SlotProgress(facts, states, slot) == Reached(v) <==>
      && slot.edge.wiring.Sound? && PartValue(g, sem, states, u, part) == F.Got(v)
      && All(facts, EdgeThenOwn(facts, states, slot.edge, slot.own))
  {
    var d, o := Delivers(facts, states, slot.edge), Meaning(g, sem, states, part.feed);
    GrantedLaws(g, facts, sem, valid);
    F.Unchanged(sem, o, part.recorded, part.recorded);
    hide Delivers, Meaning, Follow, Followed, Looks, Granted, FedBy, Turns;
    if d.Ready? {
      DeliversIff(g, facts, states, sem, valid, slot.edge, part.feed, d.checksum);
      hide F.Convert;
      TurnIff(g, facts, sem, valid, d.checksum, slot.own, part.recorded, if R.IsDeep(u) then part.recorded else u, v);
    } else if slot.edge.wiring.Sound? {
      NotDelivered(g, facts, states, sem, valid, slot.edge, part.feed);
    }
  }

  // ----- all slots -----

  lemma SlotsMean(g: Wired, facts: Facts, states: States, sem: Semantics, valid: Validity, body: Body,
      parts: seq<Part>, stem: R.Celltype)
    requires Granted(g, facts, sem, valid) && JoinedFrom(g, sem, body, parts, stem)
    requires AllReached(facts, states, body.slots)
    ensures MembersMean(g, sem, states, body.celltype, body.slots, parts, Members(facts, states, body.slots))
  {
    var slots := body.slots;
    forall i | 0 <= i < |slots|
      ensures slots[i].edge.wiring.Sound?
      ensures PartValue(g, sem, states, body.celltype, parts[i]) ==
        F.Got(SlotProgress(facts, states, slots[i]).checksum)
    {
      SlotIff(g, facts, states, sem, valid, body.celltype, slots[i], parts[i],
        SlotProgress(facts, states, slots[i]).checksum);
    }
    hide Granted, SlotProgress, PartValue;
  }

  lemma {:induction false} SlotsReached(g: Wired, facts: Facts, states: States, sem: Semantics, valid: Validity,
      u: R.Celltype, slots: seq<Slot>, parts: seq<Part>, members: seq<Member>)
    requires Granted(g, facts, sem, valid) && |parts| == |slots| && All(facts, SlotKeys(facts, states, slots))
    requires forall i :: 0 <= i < |parts| ==> PartFeeds(g, sem, u, slots[i], parts[i])
    requires MembersMean(g, sem, states, u, slots, parts, members)
    ensures AllReached(facts, states, slots) && Members(facts, states, slots) == members
    decreases |slots|
  {
    hide Granted, SlotProgress, PartValue, PartFeeds, EdgeThenOwn;
    if slots != [] {
      SlotIff(g, facts, states, sem, valid, u, slots[0], parts[0], members[0].checksum);
      RestMean(g, sem, states, u, slots, parts, members);
      SlotsReached(g, facts, states, sem, valid, u, slots[1..], parts[1..], members[1..]);
      forall i | 0 <= i < |slots| ensures SlotProgress(facts, states, slots[i]) == Reached(members[i].checksum) {
        if i > 0 {
          assert slots[i] == slots[1..][i - 1];
          assert Members(facts, states, slots[1..])[i - 1] == members[i];
        }
      }
    }
  }

  lemma RestMean(g: Wired, sem: Semantics, states: States, u: R.Celltype, slots: seq<Slot>, parts: seq<Part>,
      members: seq<Member>)
    requires slots != [] && |parts| == |slots| && MembersMean(g, sem, states, u, slots, parts, members)
    ensures MembersMean(g, sem, states, u, slots[1..], parts[1..], members[1..])
  {
    hide PartValue;
  }

  lemma NoneBroke(facts: Facts, states: States, slots: seq<Slot>)
    requires AllReached(facts, states, slots)
    ensures SlotFault(facts, states, slots).None?
  {
    FaultIsNotReached(facts, states, slots);
    hide SlotProgress;
  }

  lemma StemIff(g: Wired, facts: Facts, sem: Semantics, valid: Validity, body: Body, parts: seq<Part>,
      stem: R.Celltype, root: Option<Checksum>)
    requires Granted(g, facts, sem, valid) && JoinedFrom(g, sem, body, parts, stem)
    ensures var base := Stem(body.celltype, body.root);
            StemMeans(sem, stem, body.celltype, body.root, root) && All(facts, RootKeys(facts, base, body.own)) <==>
            RootProgress(facts, base, body.own).Reached?
              && RootValue(base, RootProgress(facts, base, body.own)) == Stem(body.celltype, root)
  {
    hide Granted, Follow, Followed, F.Convert;
    if body.root.Some? && root.Some? {
      TurnIff(g, facts, sem, valid, body.root.value, body.own, stem, body.celltype, root.value);
    }
  }

  /** Of a joined cell the value shown is the answer to a join: of one member for each slot, under its
      name and with what its own recipe and conversion mean over its own source's value, and of the
      cell's own value, converted. Once all that the cell demands is there, it shows that answer. */
  lemma JoinedCellIff(g: Wired, facts: Facts, states: States, sem: Semantics, valid: Validity, n: Node,
      parts: seq<Part>, stem: R.Celltype, v: Checksum)
    requires Granted(g, facts, sem, valid) && n in g.nodes && JoinedFrom(g, sem, g.nodes[n], parts, stem)
    ensures Rule(g, facts, states, n) == Complete(v) ==> Joins(g, facts, sem, states, g.nodes[n], parts, stem, v)
    ensures Joins(g, facts, sem, states, g.nodes[n], parts, stem, v) && All(facts, Demands(g, facts, states, n)) ==>
      Rule(g, facts, states, n) == Complete(v)
  {
    var body := g.nodes[n];
    var base := Stem(body.celltype, body.root);
    assert Rule(g, facts, states, n) == JoinedState(facts, states, base, body.own, body.slots);
    assert Demands(g, facts, states, n) == JoinDemands(facts, states, base, body.own, body.slots);
    hide Rule, Demands, Granted, JoinedFrom, Joins;
    if Rule(g, facts, states, n) == Complete(v) {
      ShownJoins(g, facts, states, sem, valid, body, parts, stem, v);
    }
    if Joins(g, facts, sem, states, body, parts, stem, v) && All(facts, Demands(g, facts, states, n)) {
      JoinsShows(g, facts, states, sem, valid, body, parts, stem, v);
    }
  }

  lemma ShownJoins(g: Wired, facts: Facts, states: States, sem: Semantics, valid: Validity, body: Body,
      parts: seq<Part>, stem: R.Celltype, v: Checksum)
    requires Granted(g, facts, sem, valid) && JoinedFrom(g, sem, body, parts, stem)
    requires JoinedState(facts, states, Stem(body.celltype, body.root), body.own, body.slots) == Complete(v)
    ensures Joins(g, facts, sem, states, body, parts, stem, v)
  {
    var base := Stem(body.celltype, body.root);
    var root := RootValue(base, RootProgress(facts, base, body.own));
    hide Granted, SlotFault, AllReached, Members, MembersMean, Reasons, AnyAwry, RootProgress, StemMeans, RootKeys;
    SlotsMean(g, facts, states, sem, valid, body, parts, stem);
    StemIff(g, facts, sem, valid, body, parts, stem, root.value);
    assert AnsweredWith(facts, JoinKey(facts, states, root, body.slots), v);
  }

  lemma JoinsShows(g: Wired, facts: Facts, states: States, sem: Semantics, valid: Validity, body: Body,
      parts: seq<Part>, stem: R.Celltype, v: Checksum)
    requires Granted(g, facts, sem, valid) && JoinedFrom(g, sem, body, parts, stem)
    requires Joins(g, facts, sem, states, body, parts, stem, v)
    requires All(facts, JoinDemands(facts, states, Stem(body.celltype, body.root), body.own, body.slots))
    ensures JoinedState(facts, states, Stem(body.celltype, body.root), body.own, body.slots) == Complete(v)
  {
    var base := Stem(body.celltype, body.root);
    var root: Option<Checksum>, members: seq<Member> :|
      && MembersMean(g, sem, states, body.celltype, body.slots, parts, members)
      && StemMeans(sem, stem, body.celltype, body.root, root)
      && AnsweredWith(facts, Join(if body.celltype.Folder? then R.Deepfolder else body.celltype, root, members), v);
    hide Granted, SlotFault, SlotKeys, Members, MembersMean, Reasons, AnyAwry, RootProgress, StemMeans, RootKeys, Joins,
      PartFeeds, AllReached;
    assert All(facts, SlotKeys(facts, states, body.slots));
    SlotsReached(g, facts, states, sem, valid, body.celltype, body.slots, parts, members);
    NoneBroke(facts, states, body.slots);
    StemIff(g, facts, sem, valid, body, parts, stem, root);
  }

  // ----- what a joined cell shows while it joins nothing -----

  /** The reason for which a slot is blocked, told by its edge's wiring, its source or its evaluation:
      of several reasons that a source is blocked for, miswiring and then a missing value go first. */
  function WhyNot(facts: Facts, states: States, edge: Edge): Option<Reason> {
    if edge.wiring.Own? then None
    else if edge.wiring.Above? then Some(ByMiswiring)
    else match StateAt(states, edge.source)
         case Complete(c) => if Follow(facts, c, edge.runs).Broke? then Some(ByError) else None
         case Waiting => None
         case Computing => None
         case Miswired => Some(ByMiswiring)
         case Unwired => Some(ByUnwired)
         case Failed(_) => Some(ByError)
         case Blocked(r) => Some(r)
         case BlockedAt(reasons) =>
           if exists n :: n in reasons && reasons[n] == ByMiswiring then Some(ByMiswiring)
           else if (exists n :: n in reasons && reasons[n] == ByUnwired) || reasons == map[] then Some(ByUnwired)
           else Some(ByError)
  }

  predicate NamesApart(slots: seq<Slot>) {
    forall i, j :: 0 <= i < j < |slots| ==> slots[i].name != slots[j].name
  }

  lemma WhyNotIs(facts: Facts, states: States, edge: Edge)
    ensures SlotReason(Delivers(facts, states, edge)) == WhyNot(facts, states, edge)
    ensures Delivers(facts, states, edge).Awry? <==> edge.wiring.Own?
  {
    var s := StateAt(states, edge.source);
    if s.BlockedAt? && !Present(s.reasons, ByMiswiring) && !Present(s.reasons, ByUnwired) && s.reasons != map[] {
      assert Present(s.reasons, ByError) by { OneReason(s.reasons); }
    }
  }

  lemma OneReason(reasons: map<Name, Reason>)
    requires reasons != map[]
    requires ByMiswiring !in reasons.Values && ByUnwired !in reasons.Values
    ensures ByError in reasons.Values
  {
    assert reasons.Keys == {} ==> reasons == map[];
    var n :| n in reasons.Keys;
    var r := reasons[n];
    assert r in reasons.Values;
    assert r == ByMiswiring || r == ByUnwired || r == ByError;
  }

  lemma {:induction false} ReasonsAre(facts: Facts, states: States, slots: seq<Slot>)
    requires NamesApart(slots)
    ensures var reasons := Reasons(facts, states, slots);
            && (forall i :: 0 <= i < |slots| ==>
                  && (slots[i].name in reasons <==> WhyNot(facts, states, slots[i].edge).Some?)
                  && (slots[i].name in reasons ==>
                        Some(reasons[slots[i].name]) == WhyNot(facts, states, slots[i].edge)))
            && (forall name :: name in reasons ==> exists i :: 0 <= i < |slots| && slots[i].name == name)
  {
    if slots != [] {
      var rest := slots[1..];
      assert forall i :: 0 <= i < |rest| ==> rest[i] == slots[i + 1];
      ReasonsAre(facts, states, rest);
      WhyNotIs(facts, states, slots[0].edge);
      hide WhyNot, Delivers, SlotReason;
      var reasons, later := Reasons(facts, states, slots), Reasons(facts, states, rest);
      forall i | 0 <= i < |slots|
        ensures slots[i].name in reasons <==> WhyNot(facts, states, slots[i].edge).Some?
        ensures slots[i].name in reasons ==> Some(reasons[slots[i].name]) == WhyNot(facts, states, slots[i].edge)
      {
        if i > 0 {
          assert rest[i - 1] == slots[i] && slots[i].name != slots[0].name;
        } else {
          assert forall k :: 0 <= k < |rest| ==> rest[k].name != slots[0].name;
        }
      }
      forall name | name in reasons ensures exists i :: 0 <= i < |slots| && slots[i].name == name {
        if name in later {
          var k :| 0 <= k < |rest| && rest[k].name == name;
          assert slots[k + 1].name == name;
        } else {
          assert slots[0].name == name;
        }
      }
    }
  }

  /** The slot's own conversion fails on what has arrived. */
  predicate OwnBreaks(facts: Facts, states: States, slot: Slot, e: Fault) {
    var d := Delivers(facts, states, slot.edge);
    d.Ready? && Follow(facts, d.checksum, slot.own).Broke? && Follow(facts, d.checksum, slot.own).fault == e
  }

  ghost predicate FirstToBreak(facts: Facts, states: States, slots: seq<Slot>, i: int, e: Fault) {
    && 0 <= i < |slots| && OwnBreaks(facts, states, slots[i], e)
    && forall j, d :: 0 <= j < i ==> !OwnBreaks(facts, states, slots[j], d)
  }

  predicate Joinable(facts: Facts, states: States, slot: Slot) {
    var d := Delivers(facts, states, slot.edge);
    d.Ready? && Follow(facts, d.checksum, slot.own).Reached?
  }

  /** A failed conversion of a part goes first, and of several the first slot's. Then an ill-formed
      part makes the cell miswired. Then it is blocked, at each slot that has a reason and for that
      reason. It waits while none has. */
  lemma JoinedShows(g: Wired, facts: Facts, states: States, n: Node)
    requires n in g.nodes && g.nodes[n].Joined? && NamesApart(g.nodes[n].slots)
    ensures var slots, s := g.nodes[n].slots, Rule(g, facts, states, n);
            && (forall i, e :: FirstToBreak(facts, states, slots, i, e) ==> s == Failed(e))
            && ((forall i, e :: !FirstToBreak(facts, states, slots, i, e)) ==>
                  (exists i :: 0 <= i < |slots| && !Joinable(facts, states, slots[i])) ==>
                    if exists i :: 0 <= i < |slots| && slots[i].edge.wiring.Own? then s == Miswired
                    else if forall i :: 0 <= i < |slots| ==> WhyNot(facts, states, slots[i].edge).None? then
                      s == Waiting
                    else
                      && s.BlockedAt?
                      && (forall name :: name in s.reasons ==> exists i :: 0 <= i < |slots| && slots[i].name == name)
                      && forall i :: 0 <= i < |slots| ==>
                           && (slots[i].name in s.reasons <==> WhyNot(facts, states, slots[i].edge).Some?)
                           && (slots[i].name in s.reasons ==>
                                 Some(s.reasons[slots[i].name]) == WhyNot(facts, states, slots[i].edge)))
  {
    var body := g.nodes[n];
    var slots, base := body.slots, Stem(body.celltype, body.root);
    assert Rule(g, facts, states, n) == JoinedState(facts, states, base, body.own, slots);
    hide Rule;
    forall i, e: Fault | FirstToBreak(facts, states, slots, i, e) ensures SlotFault(facts, states, slots) == Some(e) {
      FirstBreaks(facts, states, slots, i, e);
    }
    hide OwnBreaks, Joinable, WhyNot, Delivers, Reasons, SlotFault, AllReached, AnyAwry, FirstToBreak;
    if forall i, e :: !FirstToBreak(facts, states, slots, i, e) {
      NoneBreaks(facts, states, slots);
      if exists i :: 0 <= i < |slots| && !Joinable(facts, states, slots[i]) {
        SomeUnreached(facts, states, slots);
        ReasonsAre(facts, states, slots);
        AwryIs(facts, states, slots);
        NoReasonsIff(facts, states, slots);
      }
    }
  }

  lemma {:induction false} FirstBreaks(facts: Facts, states: States, slots: seq<Slot>, i: nat, e: Fault)
    requires FirstToBreak(facts, states, slots, i, e)
    ensures SlotFault(facts, states, slots) == Some(e)
    decreases i
  {
    hide Delivers, Follow;
    if i > 0 {
      var p := SlotProgress(facts, states, slots[0]);
      assert p.Broke? ==> OwnBreaks(facts, states, slots[0], p.fault);
      assert forall j :: 0 <= j < i ==> slots[1..][j] == slots[j + 1];
      hide OwnBreaks;
      FirstBreaks(facts, states, slots[1..], i - 1, e);
    }
  }

  /** If some slot breaks, a first one does. */
  lemma {:induction false} NoneBreaks(facts: Facts, states: States, slots: seq<Slot>)
    requires forall i, e :: !FirstToBreak(facts, states, slots, i, e)
    ensures SlotFault(facts, states, slots).None?
  {
    hide Delivers, Follow;
    if slots != [] {
      var p := SlotProgress(facts, states, slots[0]);
      assert p.Broke? ==> FirstToBreak(facts, states, slots, 0, p.fault);
      forall i, e: Fault ensures !FirstToBreak(facts, states, slots[1..], i, e) {
        assert !FirstToBreak(facts, states, slots, i + 1, e);
        LaterBreaks(facts, states, slots, i, e);
      }
      hide OwnBreaks, FirstToBreak;
      NoneBreaks(facts, states, slots[1..]);
    }
  }

  lemma LaterBreaks(facts: Facts, states: States, slots: seq<Slot>, i: int, e: Fault)
    requires slots != [] && forall d :: !OwnBreaks(facts, states, slots[0], d)
    ensures FirstToBreak(facts, states, slots[1..], i, e) ==> FirstToBreak(facts, states, slots, i + 1, e)
  {
    hide OwnBreaks;
    assert forall j :: 0 < j < |slots| ==> slots[j] == slots[1..][j - 1];
  }

  lemma SomeUnreached(facts: Facts, states: States, slots: seq<Slot>)
    requires exists i :: 0 <= i < |slots| && !Joinable(facts, states, slots[i])
    ensures !AllReached(facts, states, slots)
  {
    hide Delivers, Follow;
  }

  lemma AwryIs(facts: Facts, states: States, slots: seq<Slot>)
    ensures AnyAwry(facts, states, slots) <==> exists i :: 0 <= i < |slots| && slots[i].edge.wiring.Own?
  {
    forall i | 0 <= i < |slots|
      ensures Delivers(facts, states, slots[i].edge).Awry? <==> slots[i].edge.wiring.Own? {
      WhyNotIs(facts, states, slots[i].edge);
    }
    hide Delivers;
  }

  lemma NoReasonsIff(facts: Facts, states: States, slots: seq<Slot>)
    requires NamesApart(slots)
    ensures Reasons(facts, states, slots) == map[] <==>
      forall i :: 0 <= i < |slots| ==> WhyNot(facts, states, slots[i].edge).None?
  {
    ReasonsAre(facts, states, slots);
    hide Reasons, WhyNot;
    var reasons := Reasons(facts, states, slots);
    if forall i :: 0 <= i < |slots| ==> WhyNot(facts, states, slots[i].edge).None? {
      assert forall name :: name !in reasons;
      assert reasons == map[];
    }
  }
}
