/** When the links made from a recipe are all well-formed. A step below a deep celltype is only
    ever a key, and nothing checks this where the links are made. */
module WellFormedLinks {
  import opened Recipes

  ghost predicate AllWellFormed(source: Celltype, links: seq<Link>) {
    forall i :: 0 <= i < |links| ==> !LinkMiswired(TypeAfter(source, links[..i]), links[i].celltype, links[i].path)
  }

  // ----- the stretches of a path between conversions -----

  function TypeOf(source: Celltype, steps: seq<Step>, i: nat): Celltype
    requires i <= |steps|
  {
    if i == 0 then source else steps[i - 1].celltype
  }

  function StartOf(path: Path, position: nat, steps: seq<Step>, i: nat): nat
    requires position <= |path| && i <= |steps|
  {
    if i == 0 then position else Clamp(steps[i - 1].position, position, |path|)
  }

  function EndOf(path: Path, position: nat, steps: seq<Step>, i: nat): nat
    requires position <= |path| && i <= |steps|
  {
    if i == |steps| then |path| else Clamp(steps[i].position, position, |path|)
  }

  /** Stretch `i`, if it is read below a deep celltype, begins with a key. */
  ghost predicate KeyFirst(source: Celltype, path: Path, position: nat, steps: seq<Step>, i: nat)
    requires position <= |path| && i <= |steps|
  {
    IsDeep(TypeOf(source, steps, i)) && StartOf(path, position, steps, i) < EndOf(path, position, steps, i) ==>
      path[StartOf(path, position, steps, i)].Key?
  }

  ghost predicate KeysFirst(source: Celltype, path: Path, position: nat, steps: seq<Step>)
    requires position <= |path|
  {
    forall i :: 0 <= i <= |steps| ==> KeyFirst(source, path, position, steps, i)
  }

  lemma Cuts(source: Celltype, a: seq<Link>, b: seq<Link>)
    ensures AllWellFormed(source, a + b) <==> AllWellFormed(source, a) && AllWellFormed(TypeAfter(source, a), b)
  {
    var all := a + b;
    assert forall i :: 0 <= i < |a| ==> all[..i] == a[..i] && all[i] == a[i];
    assert forall i :: 0 <= i < |b| ==> all[..|a| + i] == a + b[..i] && all[|a| + i] == b[i];
    hide LinkMiswired;
    forall i | 0 <= i < |b| ensures TypeAfter(source, all[..|a| + i]) == TypeAfter(TypeAfter(source, a), b[..i]) {
    }
    if AllWellFormed(source, all) {
      forall i | 0 <= i < |b| ensures !LinkMiswired(TypeAfter(TypeAfter(source, a), b[..i]), b[i].celltype, b[i].path) {
        assert !LinkMiswired(TypeAfter(source, all[..|a| + i]), all[|a| + i].celltype, all[|a| + i].path);
      }
    }
    if AllWellFormed(source, a) && AllWellFormed(TypeAfter(source, a), b) {
      forall i | 0 <= i < |all| ensures !LinkMiswired(TypeAfter(source, all[..i]), all[i].celltype, all[i].path) {
        if i >= |a| {
          assert !LinkMiswired(TypeAfter(TypeAfter(source, a), b[..i - |a|]), b[i - |a|].celltype, b[i - |a|].path);
        }
      }
    }
  }

  lemma OneWellFormed(source: Celltype, link: Link)
    ensures AllWellFormed(source, [link]) <==> !LinkMiswired(source, link.celltype, link.path)
  {
    assert [link][..0] == [];
  }

  /** A stretch makes well-formed links exactly if it begins with a key wherever it must. */
  lemma StretchIsWellFormed(current: Celltype, segment: Path)
    ensures AllWellFormed(current, PathLinks(current, segment)) <==>
      (IsDeep(current) && segment != [] ==> segment[0].Key?)
  {
    if segment != [] {
      if IsDeep(current) && |segment| > 1 {
        var first, rest := segment[..1], segment[1..];
        assert first + rest == segment;
        ProjectedConcat(current, first, rest);
        var links := [Link(Projected(current, first), first), Link(Projected(current, segment), rest)];
        assert links == [links[0]] + [links[1]] && PathLinks(current, segment) == links;
        hide PathLinks, Projected;
        Cuts(current, [links[0]], [links[1]]);
        OneWellFormed(current, links[0]);
        OneWellFormed(Projected(current, first), links[1]);
        if segment[0].Key? {
          FirstIsOrdinary(current, segment);
        }
      } else {
        OneWellFormed(current, Link(Projected(current, segment), segment));
      }
    }
  }

  lemma FirstIsOrdinary(current: Celltype, segment: Path)
    requires IsDeep(current) && segment != [] && segment[0].Key?
    ensures !IsDeep(Projected(current, segment[..1]))
  {
    assert segment[..1][1..] == [];
  }

  lemma ClampOn(path: Path, position: nat, steps: seq<Step>, i: nat)
    requires position <= |path| && Sorted(steps) && 0 < i < |steps|
    ensures Clamp(steps[i].position, position, |path|) ==
      Clamp(steps[i].position, Clamp(steps[0].position, position, |path|), |path|)
  {
  }

  /** Past the first conversion the stretches are those of the rest of the path. */
  lemma RestKeysFirst(source: Celltype, path: Path, position: nat, steps: seq<Step>)
    requires position <= |path| && Sorted(steps) && steps != []
    ensures var p := Clamp(steps[0].position, position, |path|);
            KeysFirst(source, path, position, steps) <==>
            (IsDeep(source) && position < p ==> path[position].Key?)
              && KeysFirst(steps[0].celltype, path, p, steps[1..])
  {
    var p, rest := Clamp(steps[0].position, position, |path|), steps[1..];
    forall i | 0 <= i <= |rest|
      ensures KeyFirst(steps[0].celltype, path, p, rest, i) <==> KeyFirst(source, path, position, steps, i + 1)
    {
      if i > 0 {
        ClampOn(path, position, steps, i);
      }
      if i < |rest| {
        ClampOn(path, position, steps, i + 1);
      }
    }
    assert KeyFirst(source, path, position, steps, 0) <==> (IsDeep(source) && position < p ==> path[position].Key?);
    hide KeyFirst;
    if KeysFirst(steps[0].celltype, path, p, rest) {
      forall i | 1 <= i <= |steps| ensures KeyFirst(source, path, position, steps, i) {
        assert KeyFirst(steps[0].celltype, path, p, rest, i - 1);
      }
    }
  }

  lemma {:induction false} LinksFromWellFormed(source: Celltype, path: Path, position: nat, steps: seq<Step>)
    requires position <= |path| && Sorted(steps)
    ensures AllWellFormed(source, LinksFrom(source, path, position, steps)) <==>
      KeysFirst(source, path, position, steps)
    decreases |steps|
  {
    if steps == [] {
      StretchIsWellFormed(source, path[position..]);
      assert KeysFirst(source, path, position, steps) <==> KeyFirst(source, path, position, steps, 0);
    } else {
      var p := Clamp(steps[0].position, position, |path|);
      var segment, turn := path[position..p], Link(steps[0].celltype, []);
      var rest := LinksFrom(steps[0].celltype, path, p, steps[1..]);
      FirstStep(source, path, position, steps);
      StretchIsWellFormed(source, segment);
      RestKeysFirst(source, path, position, steps);
      hide KeysFirst, AllWellFormed, LinksFrom, PathLinks;
      LinksFromWellFormed(steps[0].celltype, path, p, steps[1..]);
      Cuts(source, PathLinks(source, segment), [turn] + rest);
      Cuts(TypeAfter(source, PathLinks(source, segment)), [turn], rest);
      OneWellFormed(TypeAfter(source, PathLinks(source, segment)), turn);
    }
  }

  /** No link made from a recipe is ill-formed exactly when every stretch of the path between
      two conversions that is read below a deep celltype begins with a key. */
  lemma AnonymousLinksWellFormedIff(source: Celltype, path: Path, steps: seq<Step>)
    ensures AllWellFormed(source, AnonymousLinks(source, path, steps)) <==> KeysFirst(source, path, 0, SortSteps(steps))
  {
    LinksFromWellFormed(source, path, 0, SortSteps(steps));
  }
}
