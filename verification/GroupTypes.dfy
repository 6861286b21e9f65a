/** Which kind of group a set of member tables is. */
module GroupTypes {

  datatype GroupType = ContextType | BackboneType | IterateType | ConfigurationType

  datatype Classified = Of(groupType: GroupType) | Incomplete

  /** The reserved table names: three families and one optional table of the first. */
  datatype Families = Families(context: set<string>, optional: string, backbone: set<string>, iterate: set<string>)

  ghost predicate Disjoint(f: Families) {
    f.context !! f.backbone !! f.iterate && f.optional !in f.context + f.backbone + f.iterate
    && f.context != {} && f.backbone != {} && f.iterate != {}
  }

  const OTS := Families(
    {"XDAQContextTable", "XDAQApplicationTable", "XDAQApplicationPropertyTable", "DesktopIconTable",
     "MessageFacilityTable", "GatewaySupervisorTable", "StateMachineTable", "DesktopWindowParameterTable",
     "SlowControlsDashboardSupervisorTable"},
    "SubsystemUserDataPathsTable",
    {"GroupAliasesTable", "VersionAliasesTable"},
    {"IterateTable", "IterationPlanTable", "IterationTargetTable", "IterationCommandBeginLabelTable",
     "IterationCommandChooseFSMTable", "IterationCommandConfigureAliasTable", "IterationCommandConfigureGroupTable",
     "IterationCommandExecuteFEMacroTable", "IterationCommandExecuteMacroTable",
     "IterationCommandMacroDimensionalLoopTable", "IterationCommandMacroDimensionalLoop" + "ParameterTable",
     "IterationCommandModifyGroupTable", "IterationCommandRepeatLabelTable", "IterationCommandRunTable"})

  /** The order of the names in the member map: by character code. */
  predicate Less(a: string, b: string) {
    if b == [] then false
    else if a == [] then true
    else a[0] < b[0] || (a[0] == b[0] && Less(a[1..], b[1..]))
  }

  /** The keys of a map, in order. */
  ghost predicate Sorted(names: seq<string>) {
    forall i, j :: 0 <= i < j < |names| ==> Less(names[i], names[j])
  }

  function AsSet(names: seq<string>): set<string> {
    set i | 0 <= i < |names| :: names[i]
  }

  function Reserved(f: Families): set<string> {
    f.context + {f.optional} + f.backbone + f.iterate
  }

  // ---------------------------------------------------------------------------
  // What the answer means
  // ---------------------------------------------------------------------------

  /** Exactly one whole family; the first may have its optional table too. */
  ghost predicate Whole(f: Families, t: GroupType, s: set<string>) {
    match t
    case ContextType => s == f.context || s == f.context + {f.optional}
    case BackboneType => s == f.backbone
    case IterateType => s == f.iterate
    case ConfigurationType => s != {} && s !! Reserved(f)
  }

  /** One whole family and, all of them earlier in the order, at least one name of no family. */
  ghost predicate Overlooked(f: Families, s: set<string>) {
    exists t: GroupType :: !t.ConfigurationType? && OverlookedAs(f, t, s)
  }

  ghost predicate OverlookedAs(f: Families, t: GroupType, s: set<string>) {
    && Whole(f, t, s * Reserved(f)) && s - Reserved(f) != {}
    && forall a, b :: a in s - Reserved(f) && b in s * Reserved(f) ==> Less(a, b)
  }

  // ---------------------------------------------------------------------------
  // The loop
  // ---------------------------------------------------------------------------

  function Family(f: Families, t: GroupType): set<string> {
    match t
    case ContextType => f.context
    case BackboneType => f.backbone
    case IterateType => f.iterate
    case ConfigurationType => {}
  }

  predicate Belongs(f: Families, t: GroupType, n: string) {
    n in Family(f, t) || (t.ContextType? && n == f.optional)
  }

  /** Some, or all, of the names belong to a family. */
  ghost predicate Any(f: Families, t: GroupType, names: seq<string>) {
    exists i :: 0 <= i < |names| && Belongs(f, t, names[i])
  }

  ghost predicate All(f: Families, t: GroupType, names: seq<string>) {
    forall i :: 0 <= i < |names| ==> Belongs(f, t, names[i])
  }

  /** After a member of the family come only members of the family. */
  ghost predicate Closed(f: Families, t: GroupType, names: seq<string>) {
    forall i, j :: 0 <= i < j < |names| && Belongs(f, t, names[i]) ==> Belongs(f, t, names[j])
  }

  /** How many of the names belong to a set. */
  function Count(names: seq<string>, s: set<string>): nat {
    if names == [] then 0 else Count(names[..|names| - 1], s) + if names[|names| - 1] in s then 1 else 0
  }

  function Matches(f: Families, names: seq<string>): nat {
    Count(names, f.context) + Count(names, f.backbone) + Count(names, f.iterate)
  }

  /** Exactly the answers the code gives, for every member map. */
  ghost predicate Right(f: Families, s: set<string>, r: Classified) {
    && (r == Of(ContextType) <==> Whole(f, ContextType, s))
    && (r == Of(BackboneType) <==> Whole(f, BackboneType, s))
    && (r == Of(IterateType) <==> Whole(f, IterateType, s))
    && (r == Of(ConfigurationType) <==> Whole(f, ConfigurationType, s) || Overlooked(f, s))
  }

  /** The flags of one family, after a prefix of the names. */
  ghost predicate Tracked(f: Families, t: GroupType, names: seq<string>, isAll: bool, isSome: bool) {
    isAll == All(f, t, names) && isSome == Any(f, t, names) && Closed(f, t, names)
  }

  /** The part of the loop body that each family has: set its flags and count, or give up. */
  method CheckFamily(f: Families, t: GroupType, names: seq<string>, i: nat, isAll: bool, isSome: bool, count: nat)
    returns (isAll': bool, isSome': bool, count': nat, stop: bool)
    requires Disjoint(f) && Sorted(names) && !t.ConfigurationType? && i < |names|
    requires Tracked(f, t, names[..i], isAll, isSome)
    ensures count' == count + Count(names[..i + 1], Family(f, t)) - Count(names[..i], Family(f, t))
    ensures stop ==> NoVerdict(f, AsSet(names))
    ensures !stop ==> Tracked(f, t, names[..i + 1], isAll', isSome')
  {
    isAll', isSome', count', stop := isAll, isSome, count, false;
    Extended(f, t, names, i);
    if t.ContextType? && names[i] == f.optional {
      isSome' := true;
    } else if names[i] in Family(f, t) {
      isSome' := true;
      count' := count + 1;
    } else {
      isAll' := false;
      if isSome {
        LaterStranger(f, t, names, i);
        stop := true;
      }
    }
  }

  method GetTypeOfGroup(f: Families, names: seq<string>) returns (r: Classified)
    requires Disjoint(f) && Sorted(names)
    ensures Right(f, AsSet(names), r)
  {
    var isContext, isBackbone, isIterate := true, true, true;
    var inContext, inBackbone, inIterate := false, false, false;
    var matchCount: nat := 0;
    var i := 0;
    while i < |names|
      invariant 0 <= i <= |names|
      invariant Tracked(f, ContextType, names[..i], isContext, inContext)
      invariant Tracked(f, BackboneType, names[..i], isBackbone, inBackbone)
      invariant Tracked(f, IterateType, names[..i], isIterate, inIterate)
      invariant matchCount == Matches(f, names[..i])
    {
      var stop;
      isContext, inContext, matchCount, stop := CheckFamily(f, ContextType, names, i, isContext, inContext, matchCount);
      if stop { return Incomplete; }
      isBackbone, inBackbone, matchCount, stop := CheckFamily(f, BackboneType, names, i, isBackbone, inBackbone, matchCount);
      if stop { return Incomplete; }
      isIterate, inIterate, matchCount, stop := CheckFamily(f, IterateType, names, i, isIterate, inIterate, matchCount);
      if stop { return Incomplete; }
      i := i + 1;
    }
    assert names[..i] == names;
    if (isContext || inContext) && matchCount != |f.context| {
      WrongCount(f, ContextType, names);
      return Incomplete;
    }
    if (isBackbone || inBackbone) && matchCount != |f.backbone| {
      WrongCount(f, BackboneType, names);
      return Incomplete;
    }
    if (isIterate || inIterate) && matchCount != |f.iterate| {
      WrongCount(f, IterateType, names);
      return Incomplete;
    }
    r := Of(if isContext then ContextType else if isBackbone then BackboneType
            else if isIterate then IterateType else ConfigurationType);
    RightCount(f, names, r.groupType);
  }

  // ---------------------------------------------------------------------------
  // Lemmas
  // ---------------------------------------------------------------------------

  lemma {:induction false} LessIsStrict(a: string, b: string)
    requires Less(a, b)
    ensures !Less(b, a) && a != b
    decreases |a|
  {
    if a != [] && a[0] == b[0] { LessIsStrict(a[1..], b[1..]); }
  }

  lemma SortedIsDistinct(names: seq<string>)
    requires Sorted(names)
    ensures forall i, j :: 0 <= i < j < |names| ==> names[i] != names[j]
  {
    forall i, j | 0 <= i < j < |names| ensures names[i] != names[j] { LessIsStrict(names[i], names[j]); }
  }

  lemma {:induction false} CountIsSize(names: seq<string>, s: set<string>)
    requires forall i, j :: 0 <= i < j < |names| ==> names[i] != names[j]
    ensures Count(names, s) == |s * AsSet(names)|
  {
    if names != [] {
      var n := |names| - 1;
      CountIsSize(names[..n], s);
      var last := names[n];
      assert last !in AsSet(names[..n]);
      OneMoreName(names, last);
      if last in s {
        assert s * AsSet(names) == s * AsSet(names[..n]) + {last};
      } else {
        assert s * AsSet(names) == s * AsSet(names[..n]);
      }
    }
  }

  lemma OneMoreName(names: seq<string>, last: string)
    requires names != [] && last == names[|names| - 1]
    ensures AsSet(names) == AsSet(names[..|names| - 1]) + {last}
  {
    forall n | n in AsSet(names) ensures n in AsSet(names[..|names| - 1]) + {last} {
      var i :| 0 <= i < |names| && names[i] == n;
      if i < |names| - 1 { assert names[..|names| - 1][i] == n; }
    }
  }

  /** What one more name does to the flags of a family. */
  lemma Extended(f: Families, t: GroupType, names: seq<string>, i: nat)
    requires i < |names|
    ensures Any(f, t, names[..i + 1]) <==> Any(f, t, names[..i]) || Belongs(f, t, names[i])
    ensures All(f, t, names[..i + 1]) <==> All(f, t, names[..i]) && Belongs(f, t, names[i])
    ensures Closed(f, t, names[..i]) && (Any(f, t, names[..i]) ==> Belongs(f, t, names[i])) ==>
      Closed(f, t, names[..i + 1])
    ensures Count(names[..i + 1], Family(f, t)) == Count(names[..i], Family(f, t)) + if names[i] in Family(f, t) then 1 else 0
  {
    var now, next := names[..i], names[..i + 1];
    assert next[..i] == now && next[i] == names[i];
    assert forall k :: 0 <= k < i ==> next[k] == now[k];
    if Any(f, t, now) {
      var k :| 0 <= k < |now| && Belongs(f, t, now[k]);
      assert Belongs(f, t, next[k]);
    } else if Belongs(f, t, names[i]) {
      assert Belongs(f, t, next[i]);
    }
  }

  /** No answer but "incomplete" is right. */
  ghost predicate NoVerdict(f: Families, s: set<string>) {
    (forall t :: !Whole(f, t, s)) && !Overlooked(f, s)
  }

  /** The reserved names of a set with a verdict are those of a single family. */
  lemma OneFamily(f: Families, t: GroupType, u: GroupType, s: set<string>, a: string)
    requires Disjoint(f) && !t.ConfigurationType? && a in s && Belongs(f, t, a)
    requires Whole(f, u, s) || (!u.ConfigurationType? && OverlookedAs(f, u, s))
    ensures u == t
    ensures Only(f, t, s)
    ensures Family(f, t) <= s
  {
    assert a in Reserved(f) && a in s * Reserved(f);
  }

  lemma LaterStranger(f: Families, t: GroupType, names: seq<string>, i: nat)
    requires Disjoint(f) && Sorted(names) && !t.ConfigurationType? && i < |names|
    requires Any(f, t, names[..i]) && !Belongs(f, t, names[i])
    ensures NoVerdict(f, AsSet(names))
  {
    var p :| 0 <= p < i && Belongs(f, t, names[..i][p]);
    var s := AsSet(names);
    var a, b := names[p], names[i];
    assert a in s && b in s && Less(a, b);
    LessIsStrict(a, b);
    forall u ensures !Whole(f, u, s) && (u.ConfigurationType? || !OverlookedAs(f, u, s)) {
      if Whole(f, u, s) || (!u.ConfigurationType? && OverlookedAs(f, u, s)) {
        OneFamily(f, t, u, s, a);
        assert false;
      }
    }
  }

  lemma WrongCount(f: Families, t: GroupType, names: seq<string>)
    requires Disjoint(f) && Sorted(names) && !t.ConfigurationType?
    requires All(f, t, names) || Any(f, t, names)
    requires Matches(f, names) != |Family(f, t)|
    ensures NoVerdict(f, AsSet(names))
  {
    var s := AsSet(names);
    if names == [] {
      assert s == {};
    } else {
      assert Any(f, t, names) by { if All(f, t, names) { assert Belongs(f, t, names[0]); } }
      var p :| 0 <= p < |names| && Belongs(f, t, names[p]);
      assert names[p] in s;
      forall u ensures !Whole(f, u, s) && (u.ConfigurationType? || !OverlookedAs(f, u, s)) {
        if Whole(f, u, s) || (!u.ConfigurationType? && OverlookedAs(f, u, s)) {
          OneFamily(f, t, u, s, names[p]);
          CountsOfOne(f, t, names);
          assert false;
        }
      }
    }
  }

  /** All reserved names are of one family. */
  ghost predicate Only(f: Families, t: GroupType, s: set<string>) {
    forall b :: b in s && b in Reserved(f) ==> Belongs(f, t, b)
  }

  lemma NoneOfOthers(f: Families, t: GroupType, u: GroupType, s: set<string>)
    requires Disjoint(f) && !t.ConfigurationType? && !u.ConfigurationType? && t != u && Only(f, t, s)
    ensures |Family(f, u) * s| == 0
  {
    if x :| x in Family(f, u) && x in s {
      assert false;
    }
    assert Family(f, u) * s == {};
  }

  /** If all reserved names are of one family, only that family is counted. */
  lemma CountsOfOne(f: Families, t: GroupType, names: seq<string>)
    requires Disjoint(f) && Sorted(names) && !t.ConfigurationType? && Only(f, t, AsSet(names))
    ensures Matches(f, names) == |Family(f, t) * AsSet(names)|
    ensures Family(f, t) <= AsSet(names) <==> Matches(f, names) == |Family(f, t)|
  {
    var s := AsSet(names);
    SortedIsDistinct(names);
    CountIsSize(names, Family(f, ContextType));
    CountIsSize(names, Family(f, BackboneType));
    CountIsSize(names, Family(f, IterateType));
    if !t.ContextType? { NoneOfOthers(f, t, ContextType, s); }
    if !t.BackboneType? { NoneOfOthers(f, t, BackboneType, s); }
    if !t.IterateType? { NoneOfOthers(f, t, IterateType, s); }
    SubsetBySize(Family(f, t), s);
  }

  lemma SubsetBySize(a: set<string>, s: set<string>)
    ensures a <= s <==> |a * s| == |a|
  {
    if a <= s {
      assert a * s == a;
    } else {
      var x :| x in a && x !in s;
      assert a * s <= a - {x};
      SizeOfSubset(a * s, a - {x});
    }
  }

  lemma {:induction false} SizeOfSubset(a: set<string>, b: set<string>)
    requires a <= b
    ensures |a| <= |b|
    decreases |a|
  {
    if a != {} {
      var x :| x in a;
      SizeOfSubset(a - {x}, b - {x});
    }
  }

  ghost predicate AllClosed(f: Families, names: seq<string>) {
    Closed(f, ContextType, names) && Closed(f, BackboneType, names) && Closed(f, IterateType, names)
  }

  /** If the loop went through, the reserved names are all of one family. */
  lemma SingleFamily(f: Families, t: GroupType, names: seq<string>)
    requires Disjoint(f) && !t.ConfigurationType? && Any(f, t, names) && AllClosed(f, names)
    ensures Only(f, t, AsSet(names))
  {
    var p :| 0 <= p < |names| && Belongs(f, t, names[p]);
    forall b | b in AsSet(names) && b in Reserved(f) ensures Belongs(f, t, b) {
      var q :| 0 <= q < |names| && names[q] == b;
      var u := if b in f.backbone then BackboneType else if b in f.iterate then IterateType else ContextType;
      assert Belongs(f, u, names[q]);
      if q < p {
        assert Closed(f, u, names) && Belongs(f, u, names[p]);
      } else if p < q {
        assert Closed(f, t, names);
      }
    }
  }

  lemma CompleteFamily(f: Families, t: GroupType, names: seq<string>)
    requires Disjoint(f) && Sorted(names) && !t.ConfigurationType? && Any(f, t, names)
    requires AllClosed(f, names) && Matches(f, names) == |Family(f, t)|
    ensures Whole(f, t, AsSet(names) * Reserved(f))
  {
    SingleFamily(f, t, names);
    CountsOfOne(f, t, names);
    WholeFrom(f, t, AsSet(names));
  }

  /** A set with all of a family and no reserved name of another has that family whole. */
  lemma WholeFrom(f: Families, t: GroupType, s: set<string>)
    requires !t.ConfigurationType? && Family(f, t) <= s && Only(f, t, s)
    ensures Whole(f, t, s * Reserved(f))
  {
    var r := s * Reserved(f);
    match t
    case ContextType =>
      if f.optional in r { assert r == f.context + {f.optional}; } else { assert r == f.context; }
    case BackboneType => assert r == f.backbone;
    case IterateType => assert r == f.iterate;
  }

  lemma AllOfOne(f: Families, t: GroupType, names: seq<string>)
    requires Disjoint(f) && Sorted(names) && names != [] && !t.ConfigurationType? && All(f, t, names)
    requires AllClosed(f, names) && Matches(f, names) == |Family(f, t)|
    ensures Right(f, AsSet(names), Of(t))
  {
    var s := AsSet(names);
    AllReserved(f, t, names);
    CompleteFamily(f, t, names);
    NothingElse(f, t, s, names[0]);
  }

  lemma AllReserved(f: Families, t: GroupType, names: seq<string>)
    requires !t.ConfigurationType? && names != [] && All(f, t, names)
    ensures names[0] in AsSet(names) && Belongs(f, t, names[0])
    ensures AsSet(names) * Reserved(f) == AsSet(names)
  {
    forall n | n in AsSet(names) ensures n in Reserved(f) {
      var i :| 0 <= i < |names| && names[i] == n;
      assert Belongs(f, t, names[i]);
    }
  }

  /** A whole family is that family and nothing else. */
  lemma NothingElse(f: Families, t: GroupType, s: set<string>, a: string)
    requires Disjoint(f) && !t.ConfigurationType? && a in s && Belongs(f, t, a) && Whole(f, t, s) && s * Reserved(f) == s
    ensures Right(f, s, Of(t))
  {
    assert forall u: GroupType :: !u.ConfigurationType? ==> !OverlookedAs(f, u, s);
    assert a in Reserved(f);
    forall u | u != t ensures !Whole(f, u, s) {
      if Whole(f, u, s) { OneFamily(f, t, u, s, a); }
    }
  }

  lemma StrangerBefore(f: Families, t: GroupType, names: seq<string>, i: nat, k: nat)
    requires Sorted(names) && Closed(f, t, names) && i < |names| && k < |names|
    requires !Belongs(f, t, names[i]) && Belongs(f, t, names[k])
    ensures Less(names[i], names[k])
  {
  }

  lemma StrangersOrdered(f: Families, t: GroupType, names: seq<string>, a: string, b: string)
    requires Disjoint(f) && Sorted(names) && Closed(f, t, names) && Only(f, t, AsSet(names))
    requires a in AsSet(names) && a !in Reserved(f) && b in AsSet(names) && b in Reserved(f)
    ensures Less(a, b)
  {
    var i :| 0 <= i < |names| && names[i] == a;
    var k :| 0 <= k < |names| && names[k] == b;
    StrangerBefore(f, t, names, i, k);
  }

  /** A family with strangers before it: the case the completeness checks let pass. */
  lemma StrangersFirst(f: Families, t: GroupType, names: seq<string>)
    requires Disjoint(f) && Sorted(names) && !t.ConfigurationType? && Any(f, t, names) && !All(f, t, names)
    requires AllClosed(f, names) && Matches(f, names) == |Family(f, t)|
    ensures OverlookedAs(f, t, AsSet(names))
  {
    var s := AsSet(names);
    CompleteFamily(f, t, names);
    SingleFamily(f, t, names);
    assert s - Reserved(f) != {} by {
      var q :| 0 <= q < |names| && !Belongs(f, t, names[q]);
      assert names[q] in s && names[q] !in Reserved(f);
    }
    forall a, b | a in s - Reserved(f) && b in s * Reserved(f) ensures Less(a, b) {
      StrangersOrdered(f, t, names, a, b);
    }
  }

  lemma RightCount(f: Families, names: seq<string>, t: GroupType)
    requires Disjoint(f) && Sorted(names) && AllClosed(f, names)
    requires forall u: GroupType :: !u.ConfigurationType? && (All(f, u, names) || Any(f, u, names)) ==>
      Matches(f, names) == |Family(f, u)|
    requires t == if All(f, ContextType, names) then ContextType else if All(f, BackboneType, names) then BackboneType
                  else if All(f, IterateType, names) then IterateType else ConfigurationType
    ensures Right(f, AsSet(names), Of(t))
  {
    assert names == [] ==> All(f, ContextType, names) && Matches(f, names) == 0;
    if !t.ConfigurationType? {
      AllOfOne(f, t, names);
    } else {
      NoneWhole(f, names);
      if u: GroupType :| !u.ConfigurationType? && Any(f, u, names) {
        StrangersFirst(f, u, names);
      } else {
        NoneReserved(f, names);
      }
      IsConfiguration(f, AsSet(names));
    }
  }

  /** A name outside each family: no whole family. */
  lemma NoneWhole(f: Families, names: seq<string>)
    requires !All(f, ContextType, names) && !All(f, BackboneType, names) && !All(f, IterateType, names)
    ensures forall u: GroupType :: !u.ConfigurationType? ==> !Whole(f, u, AsSet(names))
  {
    forall u: GroupType | !u.ConfigurationType? ensures !Whole(f, u, AsSet(names)) {
      assert !All(f, u, names);
      var q :| 0 <= q < |names| && !Belongs(f, u, names[q]);
      assert names[q] in AsSet(names);
    }
  }

  /** No name of any family: a configuration. */
  lemma NoneReserved(f: Families, names: seq<string>)
    requires names != []
    requires !Any(f, ContextType, names) && !Any(f, BackboneType, names) && !Any(f, IterateType, names)
    ensures Whole(f, ConfigurationType, AsSet(names))
  {
    assert names[0] in AsSet(names);
    forall n | n in AsSet(names) ensures n !in Reserved(f) {
      var i :| 0 <= i < |names| && names[i] == n;
      assert !Belongs(f, ContextType, names[i]) && !Belongs(f, BackboneType, names[i]) && !Belongs(f, IterateType, names[i]);
    }
  }

  lemma IsConfiguration(f: Families, s: set<string>)
    requires forall u: GroupType :: !u.ConfigurationType? ==> !Whole(f, u, s)
    requires Whole(f, ConfigurationType, s) || Overlooked(f, s)
    ensures Right(f, s, Of(ConfigurationType))
  {
  }

  // ---------------------------------------------------------------------------
  // The families of the program itself
  // ---------------------------------------------------------------------------

  /** What tells the programmed names apart. */
  lemma IterateNames(n: string)
    requires n in OTS.iterate
    ensures |n| > 2 && n[0] == 'I'
  {
  }

  lemma BackboneNames(n: string)
    requires n in OTS.backbone
    ensures |n| > 2 && (n[0] == 'V' || (n[0] == 'G' && n[1] == 'r'))
  {
  }

  lemma ContextNames(n: string)
    requires n in OTS.context
    ensures |n| > 2 && n[0] !in {'I', 'V', 'U'}
    ensures n[0] == 'G' ==> n[1] == 'a'
    ensures n[0] == 'D' ==> n[2] == 's'
    ensures n[0] == 'S' ==> n[1] != 'u'
  {
  }

  /** The programmed families do not overlap. */
  lemma ProgrammedFamilies()
    ensures Disjoint(OTS)
  {
    forall n | n in OTS.iterate ensures n !in OTS.backbone + OTS.context + {OTS.optional} {
      IterateNames(n);
      if n in OTS.backbone { BackboneNames(n); }
      if n in OTS.context { ContextNames(n); }
      assert OTS.optional[0] == 'S';
    }
    forall n | n in OTS.context ensures n !in OTS.backbone + {OTS.optional} {
      ContextNames(n);
      if n in OTS.backbone { BackboneNames(n); }
      assert OTS.optional[0] == 'S' && OTS.optional[1] == 'u';
    }
    if OTS.optional in OTS.backbone { BackboneNames(OTS.optional); }
    assert "XDAQContextTable" in OTS.context && "GroupAliasesTable" in OTS.backbone && "IterateTable" in OTS.iterate;
  }

  /** No programmed name starts with 'U', or with 'D' and goes on with 't' in third place. */
  lemma Foreign(n: string)
    requires |n| > 2 && (n[0] == 'U' || (n[0] == 'D' && n[2] == 't'))
    ensures n !in Reserved(OTS)
  {
    if n in OTS.iterate { IterateNames(n); }
    if n in OTS.backbone { BackboneNames(n); }
    if n in OTS.context { ContextNames(n); }
    assert OTS.optional[0] == 'S';
  }

  /** A whole backbone with one foreign table before it passes for a configuration group. */
  lemma BackboneOverlooked(stranger: string)
    requires |stranger| > 2 && stranger[0] == 'D' && stranger[2] == 't'
    ensures Overlooked(OTS, {stranger} + OTS.backbone)
  {
    Foreign(stranger);
    var s := {stranger} + OTS.backbone;
    assert s * Reserved(OTS) == OTS.backbone;
    assert s - Reserved(OTS) == {stranger};
    forall b | b in OTS.backbone ensures Less(stranger, b) { BackboneNames(b); }
    assert OverlookedAs(OTS, BackboneType, s);
  }

  /** With the foreign table in between, the same group has no type. */
  lemma BackboneMixed(stranger: string)
    requires |stranger| > 2 && stranger[0] == 'U'
    ensures NoVerdict(OTS, {stranger} + OTS.backbone)
  {
    Foreign(stranger);
    var s := {stranger} + OTS.backbone;
    ProgrammedFamilies();
    var first := "GroupAliasesTable";
    assert first in s && Belongs(OTS, BackboneType, first) && first in Reserved(OTS) && !Less(stranger, first);
    forall u ensures !Whole(OTS, u, s) && (u.ConfigurationType? || !OverlookedAs(OTS, u, s)) {
      if Whole(OTS, u, s) || (!u.ConfigurationType? && OverlookedAs(OTS, u, s)) {
        OneFamily(OTS, BackboneType, u, s, first);
        assert false;
      }
    }
  }
}
