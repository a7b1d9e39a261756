/** Recipes: a node's celltype, a path below it, and conversions at path positions.

    The recipe is split into links (`AnonymousLinks`), and a deep step cuts it in two
    (`SplitDeepStep`).  Links get a meaning from an abstract `Semantics`: how one path
    component is read and how one conversion acts on a checksum. */
module Recipes {
  import opened Wrappers

  /** The celltypes that the recipe rules treat specially, and every other one by name. */
  datatype Celltype = Deepcell | Deepfolder | Folder | Mixed | Bytes | Named(name: string)

  type Checksum = int

  /** One path component: a key, an index, or a slice (of which nothing is inspected). */
  datatype Component = Key(key: string) | Index(index: int) | Slice(start: int, stop: int)

  type Path = seq<Component>

  /** A link carries either a path or a conversion: a conversion has the empty path. */
  datatype Link = Link(celltype: Celltype, path: Path)

  datatype Step = Step(position: int, celltype: Celltype)

  predicate IsDeep(t: Celltype) { t.Deepcell? || t.Deepfolder? || t.Folder? }

  /** The celltype one component below `t`. */
  function Member(t: Celltype, component: Component): Celltype {
    if component.Slice? then t
    else if t == Deepcell then Mixed
    else if t == Deepfolder || t == Folder then Bytes
    else t
  }

  function Projected(t: Celltype, path: Path): Celltype
    decreases |path|
  {
    if path == [] then t else Projected(Member(t, path[0]), path[1..])
  }

  method ComputeProjected(source: Celltype, path: Path) returns (celltype: Celltype)
    ensures celltype == Projected(source, path)
  {
    celltype := source;
    for i := 0 to |path|
      invariant Projected(celltype, path[i..]) == Projected(source, path)
    {
      assert path[i..][1..] == path[i + 1..];
      if path[i].Slice? {
        continue;
      }
      if celltype == Deepcell {
        celltype := Mixed;
      } else if celltype == Deepfolder || celltype == Folder {
        celltype := Bytes;
      }
    }
  }

  lemma {:induction false} ProjectedConcat(t: Celltype, p: Path, q: Path)
    ensures Projected(t, p + q) == Projected(Projected(t, p), q)
    decreases |p|
  {
    if p == [] {
      assert p + q == q;
    } else {
      assert (p + q)[1..] == p[1..] + q;
      ProjectedConcat(Member(t, p[0]), p[1..], q);
    }
  }

  // ----- stable sort of steps -----

  predicate Sorted(steps: seq<Step>) {
    forall i, j :: 0 <= i < j < |steps| ==> steps[i].position <= steps[j].position
  }

  lemma SortedCons(x: Step, s: seq<Step>)
    requires Sorted(s) && forall e :: e in s ==> x.position <= e.position
    ensures Sorted([x] + s)
  {
    var r := [x] + s;
    forall i, j | 0 <= i < j < |r| ensures r[i].position <= r[j].position {
      if i == 0 {
        assert r[j] == s[j - 1] && s[j - 1] in s;
      } else {
        assert r[i] == s[i - 1] && r[j] == s[j - 1];
      }
    }
  }

  function Insert(x: Step, s: seq<Step>): (r: seq<Step>)
    requires Sorted(s)
    ensures Sorted(r) && |r| == |s| + 1
    ensures forall e :: e in r ==> e == x || e in s
  {
    if s == [] then [x]
    else if x.position <= s[0].position then
      SortedCons(x, s);
      [x] + s
    else
      var rest := Insert(x, s[1..]);
      SortedCons(s[0], rest);
      [s[0]] + rest
  }

  /** The order in which conversions apply: by position, ties in the order written. */
  function SortSteps(s: seq<Step>): (r: seq<Step>)
    ensures Sorted(r) && |r| == |s|
    ensures forall e :: e in r ==> e in s
  {
    if s == [] then [] else Insert(s[0], SortSteps(s[1..]))
  }

  function At(s: seq<Step>, position: int): seq<Step> {
    if s == [] then []
    else (if s[0].position == position then [s[0]] else []) + At(s[1..], position)
  }

  lemma AtCons(x: Step, s: seq<Step>, position: int)
    ensures At([x] + s, position) == (if x.position == position then [x] else []) + At(s, position)
  {
    assert ([x] + s)[1..] == s;
  }

  lemma {:induction false} InsertAt(x: Step, s: seq<Step>, position: int)
    requires Sorted(s)
    ensures At(Insert(x, s), position) == (if x.position == position then [x] else []) + At(s, position)
  {
    if s == [] {
      assert [x] + [] == [x];
      AtCons(x, [], position);
    } else if x.position <= s[0].position {
      AtCons(x, s, position);
    } else {
      AtCons(s[0], Insert(x, s[1..]), position);
      InsertAt(x, s[1..], position);
    }
  }

  /** Conversions at one position keep the order in which they were written. */
  lemma {:induction false} SortIsStable(s: seq<Step>, position: int)
    ensures At(SortSteps(s), position) == At(s, position)
  {
    if s != [] {
      SortIsStable(s[1..], position);
      InsertAt(s[0], SortSteps(s[1..]), position);
    }
  }

  lemma {:induction false} SortOfSorted(s: seq<Step>)
    requires Sorted(s)
    ensures SortSteps(s) == s
  {
    if s != [] {
      SortOfSorted(s[1..]);
    }
  }

  // ----- the links of a recipe -----

  /** The links of one path segment: a step below a deep celltype is a link of its own. */
  function PathLinks(current: Celltype, segment: Path): seq<Link> {
    if segment == [] then []
    else if IsDeep(current) && |segment| > 1 then
      [Link(Projected(current, segment[..1]), segment[..1]), Link(Projected(current, segment), segment[1..])]
    else [Link(Projected(current, segment), segment)]
  }

  function Clamp(position: int, low: nat, high: nat): (r: nat)
    requires low <= high
    ensures low <= r <= high
  {
    Min(Max(position, low), high)
  }

  function LinksFrom(current: Celltype, path: Path, position: nat, steps: seq<Step>): seq<Link>
    requires position <= |path|
    decreases |steps|
  {
    if steps == [] then PathLinks(current, path[position..])
    else
      var p := Clamp(steps[0].position, position, |path|);
      PathLinks(current, path[position..p])
        + ([Link(steps[0].celltype, [])] + LinksFrom(steps[0].celltype, path, p, steps[1..]))
  }

  function AnonymousLinks(source: Celltype, path: Path, steps: seq<Step>): seq<Link> {
    LinksFrom(source, path, 0, SortSteps(steps))
  }

  lemma Regroup(a: seq<Link>, b: seq<Link>, c: seq<Link>, d: seq<Link>)
    ensures a + (b + (c + d)) == a + b + c + d
    ensures a + (b + (c + d)) == (a + b + c) + d
  {
  }

  method ComputeAnonymousLinks(source: Celltype, path: Path, steps: seq<Step>) returns (links: seq<Link>)
    ensures links == AnonymousLinks(source, path, steps)
  {
    links := [];
    var current, position := source, 0;
    var sorted := SortSteps(steps);
    for i := 0 to |sorted|
      invariant 0 <= position <= |path|
      invariant links + LinksFrom(current, path, position, sorted[i..]) == AnonymousLinks(source, path, steps)
    {
      assert sorted[i..][1..] == sorted[i + 1..];
      var step := sorted[i];
      var p := Clamp(step.position, position, |path|);
      var segment := path[position..p];
      var segmentLinks := [];
      var before := current;
      if segment != [] {
        segmentLinks, current := ComputePathLinks(current, segment);
      }
      assert segmentLinks == PathLinks(before, path[position..p]);
      Regroup(links, segmentLinks, [Link(step.celltype, [])], LinksFrom(step.celltype, path, p, sorted[i + 1..]));
      links := links + segmentLinks + [Link(step.celltype, [])];
      current, position := step.celltype, p;
    }
    var segment := path[position..];
    if segment != [] {
      var segmentLinks;
      segmentLinks, current := ComputePathLinks(current, segment);
      links := links + segmentLinks;
    }
  }

  method ComputePathLinks(source: Celltype, segment: Path) returns (links: seq<Link>, current: Celltype)
    requires segment != []
    ensures links == PathLinks(source, segment) && current == Projected(source, segment)
  {
    links, current := [], source;
    var rest := segment;
    if IsDeep(current) && |rest| > 1 {
      current := Projected(current, rest[..1]);
      links := links + [Link(current, rest[..1])];
      rest := rest[1..];
      assert segment[..1] + rest == segment;
      ProjectedConcat(source, segment[..1], rest);
    }
    current := Projected(current, rest);
    links := links + [Link(current, rest)];
  }

  /** Whether one recorded link is ill-formed over a source of celltype `source`. */
  predicate LinkMiswired(source: Celltype, celltype: Celltype, path: Path) {
    path != [] && ((IsDeep(source) && (|path| != 1 || !path[0].Key?)) || celltype != Projected(source, path))
  }

  /** The celltype read by the link that follows `links`. */
  function TypeAfter(source: Celltype, links: seq<Link>): Celltype {
    if links == [] then source else links[|links| - 1].celltype
  }

  /** Every path link records the celltype its source projects to. */
  ghost predicate WellTyped(source: Celltype, links: seq<Link>) {
    forall i :: 0 <= i < |links| && links[i].path != [] ==>
      links[i].celltype == Projected(TypeAfter(source, links[..i]), links[i].path)
  }

  lemma WellTypedConcat(source: Celltype, a: seq<Link>, b: seq<Link>)
    requires WellTyped(source, a) && WellTyped(TypeAfter(source, a), b)
    ensures WellTyped(source, a + b)
  {
    var all := a + b;
    forall i | 0 <= i < |all| && all[i].path != []
      ensures all[i].celltype == Projected(TypeAfter(source, all[..i]), all[i].path)
    {
      if i < |a| {
        assert all[..i] == a[..i];
      } else {
        assert all[..i] == a + b[..i - |a|];
      }
    }
  }

  lemma PathLinksWellTyped(current: Celltype, segment: Path)
    ensures WellTyped(current, PathLinks(current, segment))
    ensures segment != [] ==> TypeAfter(current, PathLinks(current, segment)) == Projected(current, segment)
  {
    if IsDeep(current) && |segment| > 1 {
      assert segment[..1] + segment[1..] == segment;
      ProjectedConcat(current, segment[..1], segment[1..]);
    }
  }

  lemma ThenConvert(source: Celltype, first: seq<Link>, converted: Celltype, rest: seq<Link>)
    requires WellTyped(source, first) && WellTyped(converted, rest)
    ensures WellTyped(source, first + ([Link(converted, [])] + rest))
  {
    var conversion := [Link(converted, [])];
    WellTypedConcat(TypeAfter(source, first), conversion, rest);
    WellTypedConcat(source, first, conversion + rest);
  }

  lemma {:induction false} LinksFromWellTyped(current: Celltype, path: Path, position: nat, steps: seq<Step>)
    requires position <= |path|
    ensures WellTyped(current, LinksFrom(current, path, position, steps))
    decreases |steps|
  {
    if steps == [] {
      PathLinksWellTyped(current, path[position..]);
    } else {
      var p := Clamp(steps[0].position, position, |path|);
      PathLinksWellTyped(current, path[position..p]);
      LinksFromWellTyped(steps[0].celltype, path, p, steps[1..]);
      ThenConvert(current, PathLinks(current, path[position..p]), steps[0].celltype,
                  LinksFrom(steps[0].celltype, path, p, steps[1..]));
    }
  }

  /** Every path link made from a recipe records the celltype that its source projects to. */
  lemma AnonymousLinksWellTyped(source: Celltype, path: Path, steps: seq<Step>)
    ensures WellTyped(source, AnonymousLinks(source, path, steps))
  {
    LinksFromWellTyped(source, path, 0, SortSteps(steps));
  }

  // ----- what a link list is made of -----

  function ConcatPaths(links: seq<Link>): Path {
    if links == [] then [] else links[0].path + ConcatPaths(links[1..])
  }

  function Conversions(links: seq<Link>): seq<Celltype> {
    if links == [] then []
    else (if links[0].path == [] then [links[0].celltype] else []) + Conversions(links[1..])
  }

  lemma {:induction false} ConcatPathsConcat(a: seq<Link>, b: seq<Link>)
    ensures ConcatPaths(a + b) == ConcatPaths(a) + ConcatPaths(b)
    ensures Conversions(a + b) == Conversions(a) + Conversions(b)
  {
    if a == [] {
      assert a + b == b;
    } else {
      assert (a + b)[0] == a[0] && (a + b)[1..] == a[1..] + b;
      var turn := if a[0].path == [] then [a[0].celltype] else [];
      assert ConcatPaths(a) == a[0].path + ConcatPaths(a[1..]) && Conversions(a) == turn + Conversions(a[1..]);
      assert ConcatPaths(a + b) == a[0].path + ConcatPaths(a[1..] + b)
        && Conversions(a + b) == turn + Conversions(a[1..] + b);
      hide *;
      ConcatPathsConcat(a[1..], b);
      assert a[0].path + (ConcatPaths(a[1..]) + ConcatPaths(b)) == (a[0].path + ConcatPaths(a[1..])) + ConcatPaths(b);
      assert turn + (Conversions(a[1..]) + Conversions(b)) == (turn + Conversions(a[1..])) + Conversions(b);
    }
  }

  lemma OneLinkContent(link: Link)
    ensures ConcatPaths([link]) == link.path
    ensures Conversions([link]) == if link.path == [] then [link.celltype] else []
  {
    assert [link][1..] == [];
  }

  lemma PathLinksContent(current: Celltype, segment: Path)
    ensures ConcatPaths(PathLinks(current, segment)) == segment
    ensures Conversions(PathLinks(current, segment)) == []
  {
    var links := PathLinks(current, segment);
    if |links| == 2 {
      assert links == [links[0]] + [links[1]];
      ConcatPathsConcat([links[0]], [links[1]]);
      OneLinkContent(links[0]);
      OneLinkContent(links[1]);
    } else if |links| == 1 {
      OneLinkContent(links[0]);
    }
  }

  lemma {:induction false} LinksFromContent(current: Celltype, path: Path, position: nat, steps: seq<Step>)
    requires position <= |path|
    ensures ConcatPaths(LinksFrom(current, path, position, steps)) == path[position..]
    ensures Conversions(LinksFrom(current, path, position, steps)) == CelltypesOf(steps)
    decreases |steps|
  {
    if steps == [] {
      PathLinksContent(current, path[position..]);
    } else {
      var p := Clamp(steps[0].position, position, |path|);
      var first, conversion := PathLinks(current, path[position..p]), Link(steps[0].celltype, []);
      var rest := LinksFrom(steps[0].celltype, path, p, steps[1..]);
      assert LinksFrom(current, path, position, steps) == first + ([conversion] + rest);
      assert path[position..p] + path[p..] == path[position..];
      assert CelltypesOf(steps) == [steps[0].celltype] + CelltypesOf(steps[1..]);
      hide *;
      PathLinksContent(current, path[position..p]);
      LinksFromContent(steps[0].celltype, path, p, steps[1..]);
      OneLinkContent(conversion);
      ConcatPathsConcat([conversion], rest);
      ConcatPathsConcat(first, [conversion] + rest);
      assert [] + path[p..] == path[p..];
      assert [] + ([steps[0].celltype] + CelltypesOf(steps[1..])) == [steps[0].celltype] + CelltypesOf(steps[1..]);
    }
  }

  /** A recipe's links spell out exactly its path and its conversions, in order. */
  lemma AnonymousLinksContent(source: Celltype, path: Path, steps: seq<Step>)
    ensures ConcatPaths(AnonymousLinks(source, path, steps)) == path
    ensures Conversions(AnonymousLinks(source, path, steps)) == CelltypesOf(SortSteps(steps))
  {
    LinksFromContent(source, path, 0, SortSteps(steps));
  }

  // ----- splitting at a deep step -----

  datatype DeepSplit = DeepSplit(prefix: seq<Celltype>, deep: Celltype, member: Celltype,
                                 restPath: Path, restSteps: seq<Step>)

  function UpTo(steps: seq<Step>): seq<Step> {
    if steps == [] then [] else (if steps[0].position <= 0 then [steps[0]] else []) + UpTo(steps[1..])
  }

  function Beyond(steps: seq<Step>): seq<Step> {
    if steps == [] then [] else (if steps[0].position > 0 then [steps[0]] else []) + Beyond(steps[1..])
  }

  function Shift(steps: seq<Step>): seq<Step> {
    seq(|steps|, i requires 0 <= i < |steps| => Step(steps[i].position - 1, steps[i].celltype))
  }

  function CelltypesOf(steps: seq<Step>): seq<Celltype> {
    seq(|steps|, i requires 0 <= i < |steps| => steps[i].celltype)
  }

  function LastOr(default: Celltype, types: seq<Celltype>): Celltype {
    if types == [] then default else types[|types| - 1]
  }

  function SplitDeepStep(celltype: Celltype, path: Path, steps: seq<Step>): Option<DeepSplit> {
    if path == [] then None
    else
      var sorted := SortSteps(steps);
      var prefix := CelltypesOf(UpTo(sorted));
      var current := LastOr(celltype, prefix);
      if !IsDeep(current) then None
      else Some(DeepSplit(prefix, current, Projected(current, path[..1]), path[1..], Shift(Beyond(sorted))))
  }

  /** Where the first path segment ends: at the first conversion past position 0, or at the end. */
  function FirstSegment(path: Path, steps: seq<Step>): int {
    var beyond := Beyond(SortSteps(steps));
    if beyond == [] then |path| else Min(beyond[0].position, |path|)
  }

  function ConversionLinks(types: seq<Celltype>): seq<Link> {
    seq(|types|, i requires 0 <= i < |types| => Link(types[i], []))
  }

  lemma {:induction false} SortedSplits(steps: seq<Step>)
    requires Sorted(steps)
    ensures steps == UpTo(steps) + Beyond(steps)
    ensures forall s :: s in UpTo(steps) ==> s.position <= 0
    ensures forall s :: s in Beyond(steps) ==> s.position > 0
  {
    if steps != [] {
      SortedSplits(steps[1..]);
      assert UpTo(steps[1..]) != [] ==> UpTo(steps[1..])[0] in steps[1..];
    }
  }

  lemma ConversionLinksCons(first: Step, rest: seq<Step>)
    ensures CelltypesOf([first] + rest) == [first.celltype] + CelltypesOf(rest)
    ensures ConversionLinks(CelltypesOf([first] + rest)) == [Link(first.celltype, [])]
      + ConversionLinks(CelltypesOf(rest))
  {
    assert CelltypesOf([first] + rest) == [first.celltype] + CelltypesOf(rest);
  }

  lemma ConvertAtStart(current: Celltype, path: Path, first: Step, rest: seq<Step>)
    requires first.position <= 0
    ensures LinksFrom(current, path, 0, [first] + rest) == [Link(first.celltype, [])]
      + LinksFrom(first.celltype, path, 0, rest)
  {
    assert ([first] + rest)[1..] == rest;
    assert path[0..0] == [];
  }

  lemma {:induction false} PrefixConversions(current: Celltype, path: Path, pre: seq<Step>, rest: seq<Step>)
    requires forall s :: s in pre ==> s.position <= 0
    ensures LinksFrom(current, path, 0, pre + rest) ==
            ConversionLinks(CelltypesOf(pre)) + LinksFrom(LastOr(current, CelltypesOf(pre)), path, 0, rest)
    decreases |pre|
  {
    if pre == [] {
      assert pre + rest == rest;
      assert ConversionLinks(CelltypesOf(pre)) + LinksFrom(current, path, 0, rest) == LinksFrom(current, path, 0, rest);
    } else {
      var first, more := pre[0], pre[1..];
      assert first in pre;
      assert pre == [first] + more && pre + rest == [first] + (more + rest);
      assert LastOr(current, [first.celltype] + CelltypesOf(more)) == LastOr(first.celltype, CelltypesOf(more));
      hide *;
      ConvertAtStart(current, path, first, more + rest);
      PrefixConversions(first.celltype, path, more, rest);
      ConversionLinksCons(first, more);
      RegroupThree([Link(first.celltype, [])], ConversionLinks(CelltypesOf(more)),
                   LinksFrom(LastOr(first.celltype, CelltypesOf(more)), path, 0, rest));
    }
  }

  lemma RegroupThree(a: seq<Link>, b: seq<Link>, c: seq<Link>)
    ensures (a + b) + c == a + (b + c)
  {
  }

  lemma FirstStep(current: Celltype, path: Path, position: nat, steps: seq<Step>)
    requires steps != [] && position <= |path|
    ensures var p := Clamp(steps[0].position, position, |path|);
            LinksFrom(current, path, position, steps) ==
            PathLinks(current, path[position..p])
              + ([Link(steps[0].celltype, [])] + LinksFrom(steps[0].celltype, path, p, steps[1..]))
  {
  }

  lemma ShiftCons(steps: seq<Step>)
    requires steps != []
    ensures Shift(steps) != [] && Shift(steps)[0] == Step(steps[0].position - 1, steps[0].celltype)
    ensures Shift(steps)[1..] == Shift(steps[1..])
  {
  }

  lemma TailSlice(path: Path, i: int, j: int)
    requires 1 <= i <= j <= |path|
    ensures path[1..][i - 1..j - 1] == path[i..j]
  {
  }

  lemma {:induction false} ShiftedTail(current: Celltype, path: Path, position: nat, steps: seq<Step>)
    requires 1 <= position <= |path|
    ensures LinksFrom(current, path, position, steps) == LinksFrom(current, path[1..], position - 1, Shift(steps))
    decreases |steps|
  {
    if steps == [] {
      assert path[position..] == path[1..][position - 1..];
    } else {
      var p := Clamp(steps[0].position, position, |path|);
      hide *;
      FirstStep(current, path, position, steps);
      FirstShifted(current, path, position, steps);
      ShiftedTail(steps[0].celltype, path, p, steps[1..]);
    }
  }

  lemma FirstShifted(current: Celltype, path: Path, position: nat, steps: seq<Step>)
    requires 1 <= position <= |path| && steps != []
    ensures var p := Clamp(steps[0].position, position, |path|);
            LinksFrom(current, path[1..], position - 1, Shift(steps)) ==
            PathLinks(current, path[position..p])
              + ([Link(steps[0].celltype, [])] + LinksFrom(steps[0].celltype, path[1..], p - 1, Shift(steps[1..])))
  {
    var p := Clamp(steps[0].position, position, |path|);
    ShiftCons(steps);
    assert Clamp(Shift(steps)[0].position, position - 1, |path[1..]|) == p - 1;
    TailSlice(path, position, p);
    hide *;
    FirstStep(current, path[1..], position - 1, Shift(steps));
  }

  /** The first path segment over a deep celltype, against the step followed by its rest. */
  lemma SegmentSplits(deep: Celltype, segment: Path)
    requires IsDeep(deep) && segment != []
    ensures var member := Projected(deep, segment[..1]);
            var whole, split := PathLinks(deep, segment),
              [Link(member, segment[..1])] + PathLinks(member, segment[1..]);
            if !IsDeep(member) || |segment| <= 2 then whole == split else |whole| < |split|
  {
    assert segment[..1] + segment[1..] == segment;
    ProjectedConcat(deep, segment[..1], segment[1..]);
    if |segment| == 1 {
      assert segment[..1] == segment && segment[1..] == [];
    }
  }

  lemma LastSegment(current: Celltype, path: Path)
    ensures LinksFrom(current, path, 0, []) == PathLinks(current, path) + []
  {
    assert path[0..] == path;
    hide PathLinks;
  }

  lemma PrefixSlices(path: Path, end: nat)
    requires 1 <= end <= |path|
    ensures path[0..end] == path[..end] && path[1..][0..end - 1] == path[..end][1..] && path[..end][..1] == path[..1]
  {
  }

  lemma DeepSplitShape(deep: Celltype, path: Path, beyond: seq<Step>)
    requires IsDeep(deep) && path != []
    requires forall s :: s in beyond ==> s.position > 0
    ensures var member := Projected(deep, path[..1]);
            var end := if beyond == [] then |path| else Min(beyond[0].position, |path|);
            var tail := if beyond == [] then [] else
              [Link(beyond[0].celltype, [])] + LinksFrom(beyond[0].celltype, path, end, beyond[1..]);
            && 1 <= end <= |path|
            && LinksFrom(deep, path, 0, beyond) == PathLinks(deep, path[..end]) + tail
            && LinksFrom(member, path[1..], 0, Shift(beyond)) == PathLinks(member, path[..end][1..]) + tail
            && path[..end][..1] == path[..1]
  {
    if beyond == [] {
      assert path[..|path|] == path && Shift(beyond) == [] && path[..|path|][1..] == path[1..];
      hide *;
      LastSegment(deep, path);
      LastSegment(Projected(deep, path[..1]), path[1..]);
    } else {
      assert beyond[0] in beyond;
      hide *;
      DeepSplitFirst(deep, Projected(deep, path[..1]), path, beyond);
    }
  }

  lemma DeepSplitFirst(deep: Celltype, member: Celltype, path: Path, beyond: seq<Step>)
    requires path != [] && beyond != [] && beyond[0].position > 0
    ensures var end := Min(beyond[0].position, |path|);
            var tail := [Link(beyond[0].celltype, [])] + LinksFrom(beyond[0].celltype, path, end, beyond[1..]);
            && 1 <= end <= |path|
            && LinksFrom(deep, path, 0, beyond) == PathLinks(deep, path[..end]) + tail
            && LinksFrom(member, path[1..], 0, Shift(beyond)) == PathLinks(member, path[..end][1..]) + tail
            && path[..end][..1] == path[..1]
  {
    var end := Min(beyond[0].position, |path|);
    assert 1 <= end <= |path| && end == Clamp(beyond[0].position, 0, |path|)
      && end - 1 == Clamp(beyond[0].position - 1, 0, |path| - 1);
    hide *;
    ShiftCons(beyond);
    FirstStep(deep, path, 0, beyond);
    FirstStep(member, path[1..], 0, Shift(beyond));
    PrefixSlices(path, end);
    ShiftedTail(beyond[0].celltype, path, end, beyond[1..]);
  }

  lemma CutAligns(front: seq<Link>, step: Link, whole: seq<Link>, member: seq<Link>, tail: seq<Link>)
    requires whole == [step] + member || |whole| < 1 + |member|
    ensures front + (whole + tail) == front + [step] + (member + tail) <==> whole == [step] + member
  {
    if whole == [step] + member {
      assert front + (([step] + member) + tail) == front + [step] + (member + tail);
    }
  }

  /** Cutting at the deep step gives the same links as the whole recipe, exactly when the
      step yields an ordinary celltype or the first segment has at most two components. */
  lemma DeepSplitAligns(celltype: Celltype, path: Path, steps: seq<Step>)
    requires SplitDeepStep(celltype, path, steps).Some?
    ensures var s := SplitDeepStep(celltype, path, steps).value;
            AnonymousLinks(celltype, path, steps) ==
              ConversionLinks(s.prefix) + [Link(s.member, path[..1])]
                + AnonymousLinks(s.member, s.restPath, s.restSteps)
            <==> !IsDeep(s.member) || FirstSegment(path, steps) <= 2
  {
    var s := SplitDeepStep(celltype, path, steps).value;
    var sorted := SortSteps(steps);
    var pre, beyond := UpTo(sorted), Beyond(sorted);
    SortedSplits(sorted);
    assert forall i :: 0 <= i < |beyond| ==> beyond[i] == sorted[|pre| + i];
    SortOfSorted(Shift(beyond));
    hide PathLinks, LinksFrom, SortSteps, Shift, UpTo, Beyond, ConversionLinks, Projected, CelltypesOf, Sorted;
    PrefixConversions(celltype, path, pre, beyond);
    DeepSplitShape(s.deep, path, beyond);
    var end := FirstSegment(path, steps);
    SegmentSplits(s.deep, path[..end]);
    var tail := if beyond == [] then [] else
      [Link(beyond[0].celltype, [])] + LinksFrom(beyond[0].celltype, path, end, beyond[1..]);
    CutAligns(ConversionLinks(s.prefix), Link(s.member, path[..1]),
              PathLinks(s.deep, path[..end]), PathLinks(s.member, path[..end][1..]), tail);
  }

  /** The link a run reports after the cut is the recorded link at that index plus the offset. */
  lemma ChainOffsetNamesTheLink(celltype: Celltype, path: Path, steps: seq<Step>, last: nat)
    requires SplitDeepStep(celltype, path, steps).Some?
    requires var s := SplitDeepStep(celltype, path, steps).value;
             !IsDeep(s.member) && last < |AnonymousLinks(s.member, s.restPath, s.restSteps)|
    ensures var s := SplitDeepStep(celltype, path, steps).value;
            var offset := |s.prefix| + 1;
            && offset + last < |AnonymousLinks(celltype, path, steps)|
            && AnonymousLinks(celltype, path, steps)[offset + last] ==
               AnonymousLinks(s.member, s.restPath, s.restSteps)[last]
  {
    DeepSplitAligns(celltype, path, steps);
  }

  /** A slice below a deep celltype stays deep, and three components then split differently. This is
      of the two functions alone: the evaluator rejects such a recipe before it cuts it. */
  lemma SlicedDeepStepMisaligns()
    ensures var path := [Slice(0, 1), Key("a"), Key("b")];
            var s := SplitDeepStep(Deepcell, path, []);
            && s.Some?
            && AnonymousLinks(Deepcell, path, []) !=
               ConversionLinks(s.value.prefix) + [Link(s.value.member, path[..1])]
                 + AnonymousLinks(s.value.member, s.value.restPath, s.value.restSteps)
  {
    var path := [Slice(0, 1), Key("a"), Key("b")];
    assert path[..1][1..] == [];
    DeepSplitAligns(Deepcell, path, []);
  }
}
