/** Reference counts of checksums, and the passes that bring a map of claims up to date.

    A pass acquires every new or changed claim before it gives up any old one, so a checksum
    claimed before and after never loses its last reference on the way. */
module Refholds {
  import opened Wrappers

  type Checksum = nat
  type Role = nat

  datatype Claim = Claim(checksum: Checksum, scratch: bool)

  type Claims = map<Role, Claim>

  /** The roles that claim `c`. */
  function Claimants(claims: Claims, c: Checksum): set<Role> {
    set r | r in claims && claims[r].checksum == c
  }

  /** The roles whose claim in `claims` is not the one they have in `other`. */
  function Changed(claims: Claims, other: Claims): set<Role> {
    set r | r in claims && !(r in other && other[r] == claims[r])
  }

  function ChangedAt(claims: Claims, other: Claims, c: Checksum): set<Role> {
    Changed(claims, other) * Claimants(claims, c)
  }

  /** Giving up the old claims and taking the new ones changes a count by the difference. */
  lemma Balance(before: Claims, after: Claims, c: Checksum)
    ensures |Claimants(after, c)| - |Claimants(before, c)| ==
      |ChangedAt(after, before, c)| - |ChangedAt(before, after, c)|
  {
    var kept := Claimants(before, c) * Claimants(after, c);
    var stayed := set r | r in kept && before[r] == after[r];
    KeptOrChanged(before, after, c, stayed);
    KeptOrChanged(after, before, c, stayed);
  }

  lemma KeptOrChanged(claims: Claims, other: Claims, c: Checksum, stayed: set<Role>)
    requires forall r :: r in stayed <==> r in claims && r in other && claims[r] == other[r] && claims[r].checksum == c
    ensures |Claimants(claims, c)| == |ChangedAt(claims, other, c)| + |stayed|
  {
    var changed := ChangedAt(claims, other, c);
    assert Claimants(claims, c) == changed + stayed;
    assert changed !! stayed;
  }

  function Count(roles: seq<Role>, claims: Claims, c: Checksum): nat {
    if roles == [] then 0
    else Count(roles[..|roles| - 1], claims, c)
         + (if roles[|roles| - 1] in claims && claims[roles[|roles| - 1]].checksum == c then 1 else 0)
  }

  ghost predicate Lists(roles: seq<Role>, s: set<Role>) {
    && (forall i, j :: 0 <= i < j < |roles| ==> roles[i] != roles[j])
    && (forall r :: r in roles <==> r in s)
  }

  lemma {:induction false} CountIsSize(roles: seq<Role>, s: set<Role>, claims: Claims, c: Checksum)
    requires Lists(roles, s) && s <= claims.Keys
    ensures Count(roles, claims, c) == |s * Claimants(claims, c)|
    decreases |roles|
  {
    if roles == [] {
      assert s * Claimants(claims, c) == {};
    } else {
      var init, last := roles[..|roles| - 1], roles[|roles| - 1];
      assert roles == init + [last] && last in roles;
      assert last in Claimants(claims, c) <==> claims[last].checksum == c;
      assert Lists(init, s - {last});
      hide Claimants, Lists;
      CountIsSize(init, s - {last}, claims, c);
      WithoutOne(s, last, Claimants(claims, c));
    }
  }

  lemma WithoutOne(s: set<Role>, x: Role, t: set<Role>)
    requires x in s
    ensures |s * t| == |(s - {x}) * t| + (if x in t then 1 else 0)
  {
    assert s * t == (s - {x}) * t + (if x in t then {x} else {});
  }

  lemma CountStep(roles: seq<Role>, i: nat, claims: Claims, c: Checksum)
    requires i < |roles|
    ensures Count(roles[..i + 1], claims, c) ==
            Count(roles[..i], claims, c) + (if roles[i] in claims && claims[roles[i]].checksum == c then 1 else 0)
  {
    assert roles[..i + 1][..i] == roles[..i];
  }

  lemma {:induction false} CountGrows(roles: seq<Role>, i: nat, claims: Claims, c: Checksum)
    requires i <= |roles|
    ensures Count(roles[..i], claims, c) <= Count(roles, claims, c)
    decreases |roles| - i
  {
    if i < |roles| {
      CountStep(roles, i, claims, c);
      CountGrows(roles, i + 1, claims, c);
    } else {
      assert roles[..i] == roles;
    }
  }

  /** The process-wide reference counts, with every intermediate state they went through. */
  class RefTable {
    var counts: map<Checksum, nat>
    ghost var trace: seq<map<Checksum, nat>>

    function At(c: Checksum): nat reads this {
      if c in counts then counts[c] else 0
    }

    constructor ()
      ensures counts == map[] && trace == []
    {
      counts, trace := map[], [];
    }

    method Incref(c: Checksum)
      modifies this
      ensures counts == old(counts)[c := old(At(c)) + 1] && trace == old(trace) + [counts]
    {
      counts := counts[c := At(c) + 1];
      trace := trace + [counts];
    }

    method Decref(c: Checksum)
      requires At(c) > 0
      modifies this
      ensures counts == old(counts)[c := old(At(c)) - 1] && trace == old(trace) + [counts]
    {
      counts := counts[c := At(c) - 1];
      trace := trace + [counts];
    }
  }

  function In(counts: map<Checksum, nat>, c: Checksum): nat {
    if c in counts then counts[c] else 0
  }

  /** No state from position `start` of `trace` on has a count of `c` below `floor`. */
  ghost predicate StaysAbove(trace: seq<map<Checksum, nat>>, start: nat, c: Checksum, floor: nat) {
    forall k :: start <= k < |trace| ==> In(trace[k], c) >= floor
  }

  datatype SyncError = AcquireFailed

  /** One of a Context's maps of claims: module, edge-pin or anonymous. */
  class Holder {
    const table: RefTable
    var held: Claims

    ghost predicate Valid() reads this, table {
      forall c :: table.At(c) >= |Claimants(held, c)|
    }

    constructor (table: RefTable)
      ensures Valid() && this.table == table && held == map[]
    {
      this.table := table;
      held := map[];
      new;
      assert forall c :: Claimants(held, c) == {};
    }

    /** Acquires the claims of `roles` in order; if one is refused, gives back those acquired. */
    method Acquire(active: Claims, roles: seq<Role>, refused: set<Role>) returns (ok: bool)
      requires forall r :: r in roles ==> r in active
      modifies table
      ensures ok <==> forall r :: r in roles ==> r !in refused
      ensures forall c: Checksum :: table.At(c) == old(table.At(c)) + (if ok then Count(roles, active, c) else 0)
      ensures |old(table.trace)| <= |table.trace| && table.trace[..|old(table.trace)|] == old(table.trace)
      ensures forall c: Checksum :: StaysAbove(table.trace, |old(table.trace)|, c, old(table.At(c)))
    {
      var i := 0;
      assert roles[..0] == [];
      while i < |roles| && roles[i] !in refused
        invariant i <= |roles| && forall j :: 0 <= j < i ==> roles[j] !in refused
        invariant forall c: Checksum :: table.At(c) == old(table.At(c)) + Count(roles[..i], active, c)
        invariant |old(table.trace)| <= |table.trace| && table.trace[..|old(table.trace)|] == old(table.trace)
        invariant forall c: Checksum :: StaysAbove(table.trace, |old(table.trace)|, c, old(table.At(c)))
      {
        forall c: Checksum
          ensures Count(roles[..i + 1], active, c) == Count(roles[..i], active, c)
            + (if active[roles[i]].checksum == c then 1 else 0) {
          CountStep(roles, i, active, c);
        }
        table.Incref(active[roles[i]].checksum);
        i := i + 1;
      }
      if i == |roles| {
        assert roles[..i] == roles;
        return true;
      }
      assert roles[i] in roles;
      while i > 0
        invariant 0 <= i <= |roles|
        invariant forall c: Checksum :: table.At(c) == old(table.At(c)) + Count(roles[..i], active, c)
        invariant |old(table.trace)| <= |table.trace| && table.trace[..|old(table.trace)|] == old(table.trace)
        invariant forall c: Checksum :: StaysAbove(table.trace, |old(table.trace)|, c, old(table.At(c)))
      {
        i := i - 1;
        forall c: Checksum
          ensures Count(roles[..i + 1], active, c) == Count(roles[..i], active, c)
            + (if active[roles[i]].checksum == c then 1 else 0) {
          CountStep(roles, i, active, c);
        }
        table.Decref(active[roles[i]].checksum);
      }
      return false;
    }

    /** Gives up the claims of `roles`. */
    method Release(claims: Claims, roles: seq<Role>)
      requires forall r :: r in roles ==> r in claims
      requires forall c :: table.At(c) >= Count(roles, claims, c)
      modifies table
      ensures forall c: Checksum :: table.At(c) == old(table.At(c)) - Count(roles, claims, c)
      ensures |old(table.trace)| <= |table.trace| && table.trace[..|old(table.trace)|] == old(table.trace)
      ensures forall c: Checksum :: StaysAbove(table.trace, |old(table.trace)|, c, table.At(c))
    {
      assert roles[..0] == [];
      for i := 0 to |roles|
        invariant forall c: Checksum :: table.At(c) == old(table.At(c)) - Count(roles[..i], claims, c)
        invariant |old(table.trace)| <= |table.trace| && table.trace[..|old(table.trace)|] == old(table.trace)
        invariant forall c: Checksum ::
          StaysAbove(table.trace, |old(table.trace)|, c, old(table.At(c)) - Count(roles, claims, c))
      {
        forall c: Checksum
          ensures Count(roles[..i + 1], claims, c) == Count(roles[..i], claims, c)
            + (if claims[roles[i]].checksum == c then 1 else 0)
                 ensures Count(roles[..i + 1], claims, c) <= Count(roles, claims, c) {
          CountStep(roles, i, claims, c);
          CountGrows(roles, i + 1, claims, c);
        }
        table.Decref(claims[roles[i]].checksum);
      }
      assert roles[..|roles|] == roles;
    }

    /** Brings the claims to `active`. Every count changes by the new claims minus the old; no
        count dips below both its value before and its value after; and when an acquire is
        refused, all counts and the old claims are back. */
    method Sync(active: Claims, taken: seq<Role>, dropped: seq<Role>, refused: set<Role>)
        returns (r: Result<(), SyncError>)
      requires Valid()
      requires Lists(taken, Changed(active, held)) && Lists(dropped, Changed(held, active))
      modifies this`held, table
      ensures r.Ok? <==> forall role :: role in Changed(active, old(held)) ==> role !in refused
      ensures r.Ok? ==> held == active && Valid()
      ensures r.Ok? ==>
        forall c: Checksum :: table.At(c) == old(table.At(c)) + |Claimants(held, c)| - |Claimants(old(held), c)|
      ensures r.Err? ==> held == old(held) && forall c: Checksum :: table.At(c) == old(table.At(c))
      ensures forall c: Checksum :: StaysAbove(table.trace, |old(table.trace)|, c, Min(old(table.At(c)), table.At(c)))
    {
      var ok := Acquire(active, taken, refused);
      if !ok {
        return Err(AcquireFailed);
      }
      forall c: Checksum
        ensures Count(taken, active, c) == |ChangedAt(active, held, c)|
        ensures Count(dropped, held, c) == |ChangedAt(held, active, c)| <= |Claimants(held, c)|
        ensures |Claimants(active, c)| - |Claimants(held, c)| ==
          |ChangedAt(active, held, c)| - |ChangedAt(held, active, c)|
      {
        CountIsSize(taken, Changed(active, held), active, c);
        CountIsSize(dropped, Changed(held, active), held, c);
        Balance(held, active, c);
        SubsetSize(ChangedAt(held, active, c), Claimants(held, c));
      }
      Release(held, dropped);
      held := active;
      return Ok(());
    }

    /** One slot: the new checksum is acquired before the old one is given up, so a refused
        acquire leaves all as it was. */
    method Replace(slot: Role, checksum: Option<Checksum>, scratch: bool, refused: bool)
        returns (r: Result<(), SyncError>)
      requires Valid()
      modifies this`held, table
      ensures r.Err? <==> checksum.Some? && refused
      ensures r.Err? ==> held == old(held) && table.trace == old(table.trace)
      ensures r.Ok? ==>
        held == if checksum.Some? then old(held)[slot := Claim(checksum.value, scratch)] else old(held) - {slot}
      ensures Valid()
      ensures forall c: Checksum :: table.At(c) == old(table.At(c)) + |Claimants(held, c)| - |Claimants(old(held), c)|
      ensures forall c: Checksum :: StaysAbove(table.trace, |old(table.trace)|, c, Min(old(table.At(c)), table.At(c)))
    {
      ghost var before := held;
      if checksum.Some? {
        if refused {
          return Err(AcquireFailed);
        }
        table.Incref(checksum.value);
      }
      if slot in held {
        assert slot in Claimants(held, held[slot].checksum);
        table.Decref(held[slot].checksum);
      }
      held := if checksum.Some? then held[slot := Claim(checksum.value, scratch)] else held - {slot};
      forall c: Checksum ensures |Claimants(held, c)| - |Claimants(before, c)| ==
          (if checksum == Some(c) then 1 else 0) - (if slot in before && before[slot].checksum == c then 1 else 0) {
        SlotBalance(before, held, slot, c);
      }
      return Ok(());
    }
  }

  lemma SlotBalance(before: Claims, after: Claims, slot: Role, c: Checksum)
    requires before - {slot} == after - {slot}
    ensures |Claimants(after, c)| - |Claimants(before, c)| ==
            (if slot in after && after[slot].checksum == c then 1 else 0)
              - (if slot in before && before[slot].checksum == c then 1 else 0)
  {
    SlotSize(before, slot, c);
    SlotSize(after, slot, c);
  }

  lemma SlotSize(claims: Claims, slot: Role, c: Checksum)
    ensures |Claimants(claims, c)| == |Claimants(claims - {slot}, c)|
      + (if slot in claims && claims[slot].checksum == c then 1 else 0)
  {
    var rest := Claimants(claims - {slot}, c);
    assert slot !in rest;
    assert Claimants(claims, c) == if slot in claims && claims[slot].checksum == c then rest + {slot} else rest;
  }
}
