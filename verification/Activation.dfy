/** Loading and activating table groups of the four types, and giving a group up.

    The effects of the database and of the tables' own initialisation are parameters, so a
    statement here holds whatever they are; what is asked of the database is met by both
    ways of loading the members (see `SequentialIsLoad` and `PoolIsLoad`). */
module Activation {
  import opened Common
  import opened MemberLoad
  import opened GroupTypes
  import SlotPool

  /** The recorded name and key of one type; the name is empty when there is none. */
  datatype Group = Group(name: string, key: Option<int>)

  const NONE := Group("", None)

  /** The active groups and the tables with their active views. */
  datatype Manager = Manager(context: Group, backbone: Group, iterate: Group, configuration: Group,
                             tables: map<Name, Table>)

  function GroupOf(m: Manager, t: GroupType): Group {
    match t
    case ContextType => m.context
    case BackboneType => m.backbone
    case IterateType => m.iterate
    case ConfigurationType => m.configuration
  }

  function Recorded(m: Manager, t: GroupType, g: Group): Manager {
    match t
    case ContextType => m.(context := g)
    case BackboneType => m.(backbone := g)
    case IterateType => m.(iterate := g)
    case ConfigurationType => m.(configuration := g)
  }

  /** The table class of a type: its family, or for a configuration everything unreserved. */
  predicate Owns(f: Families, t: GroupType, n: Name) {
    if t.ConfigurationType? then n !in Reserved(f) else Belongs(f, t, n)
  }

  // ---------------------------------------------------------------------------
  // Giving a group up
  // ---------------------------------------------------------------------------

  /** The types a name stands for: all of them for the empty name. */
  predicate Names(m: Manager, name: string, t: GroupType) {
    name == "" || name == GroupOf(m, t).name
  }

  predicate Known(m: Manager, name: string) {
    Names(m, name, ContextType) || Names(m, name, BackboneType) || Names(m, name, IterateType) || Names(m, name, ConfigurationType)
  }

  /** A name is known if it is empty or that of the recorded group of some type. */
  lemma KnownSpelled(m: Manager, name: string)
    ensures Known(m, name) <==> name == "" || exists t :: GroupOf(m, t).name == name
  {
    if t :| GroupOf(m, t).name == name {
      match t
      case ContextType => assert Names(m, name, ContextType);
      case BackboneType => assert Names(m, name, BackboneType);
      case IterateType => assert Names(m, name, IterateType);
      case ConfigurationType => assert Names(m, name, ConfigurationType);
    }
  }

  predicate Hit(f: Families, m: Manager, name: string, n: Name) {
    || name == ""
    || (Names(m, name, ContextType) && Owns(f, ContextType, n))
    || (Names(m, name, BackboneType) && Owns(f, BackboneType, n))
    || (Names(m, name, IterateType) && Owns(f, IterateType, n))
    || (Names(m, name, ConfigurationType) && Owns(f, ConfigurationType, n))
  }

  function GivenUp(m: Manager, name: string, t: GroupType): Group {
    if Names(m, name, t) then NONE else GroupOf(m, t)
  }

  function Destroyed(f: Families, m: Manager, name: string, onlyDeactivate: bool): Manager {
    Manager(GivenUp(m, name, ContextType), GivenUp(m, name, BackboneType), GivenUp(m, name, IterateType),
            GivenUp(m, name, ConfigurationType), TablesLeft(f, m, name, onlyDeactivate, m.tables.Keys))
  }

  /** The tables once those in `seen` have been dealt with. */
  function TablesLeft(f: Families, m: Manager, name: string, onlyDeactivate: bool, seen: set<Name>): map<Name, Table> {
    map n | n in m.tables && !(n in seen && Hit(f, m, name, n) && !onlyDeactivate) ::
      if n in seen && Hit(f, m, name, n) then m.tables[n].(view := None) else m.tables[n]
  }

  // ---------------------------------------------------------------------------
  // Loading a group
  // ---------------------------------------------------------------------------

  datatype Wanted = AllTypes | OnlyBackboneOrContext | OnlyBackbone

  datatype Request = Request(name: string, key: int, members: seq<Member>, activate: bool, describeOnly: bool,
                             typeAsked: bool, wanted: Wanted, tracked: bool, accumulate: bool, threads: int)

  /** What loading the members did to the tables it reached: a new object, or the entry erased. */
  datatype Load = Load(entries: map<Name, Option<Table>>, threw: bool, warned: bool)

  datatype Init = Fine | RuntimeError | OtherError

  /** What the database and the tables' own code answer during one request. */
  datatype World = World(found: bool, load: Load, treeThrew: bool, inits: seq<Init>, schedule: seq<SlotPool.Actor>)

  function NamesOf(members: seq<Member>): (names: seq<string>)
    ensures |names| == |members| && forall i :: 0 <= i < |members| ==> names[i] == members[i].name
  {
    seq(|members|, i requires 0 <= i < |members| => members[i].name)
  }

  ghost predicate IsMember(members: seq<Member>, n: Name) {
    exists i :: 0 <= i < |members| && members[i].name == n
  }

  /** Each member is now active at its own version. */
  ghost predicate Complete(members: seq<Member>, entries: map<Name, Option<Table>>) {
    forall i :: 0 <= i < |members| ==>
      members[i].name in entries && entries[members[i].name].Some?
      && entries[members[i].name].value.view == Some(members[i].version)
  }

  /** What loading members is relied on for: it touches members only, and it is complete unless it complains. */
  ghost predicate LoadOk(members: seq<Member>, accumulate: bool, load: Load) {
    && (forall n :: n in load.entries ==> IsMember(members, n))
    && (!load.threw && !load.warned ==> Complete(members, load.entries))
    && (load.warned ==> accumulate)
  }

  /** The initialisation of a member's table does not go well. */
  predicate InitFails(members: seq<Member>, inits: seq<Init>, m: Member)
    requires |inits| == |members|
  {
    exists i :: 0 <= i < |members| && members[i] == m && inits[i] != Fine
  }

  /** Initialising in worker threads: the slot pool, with an init call that raises or not for a fetch, and
      with tables that nobody changes. */
  function InitJob(members: seq<Member>, inits: seq<Init>, threads: nat): SlotPool.Job
    requires |inits| == |members|
  {
    SlotPool.Job(members, threads, (m, prior) => Fetched(InitFails(members, inits, m), Some(Table(0, Some(m.version)))), map[])
  }

  /** The pool as the schedule leaves it. */
  function InitPool(r: Request, w: World): SlotPool.State
    requires |w.inits| == |r.members| && r.threads >= 2
  {
    var j := InitJob(r.members, w.inits, r.threads);
    SlotPool.Run(j, SlotPool.Start(j), w.schedule)
  }

  /** If worker threads are used, their schedule goes on until the main thread has seen them all done. */
  ghost predicate WorldOk(r: Request, w: World) {
    && LoadOk(r.members, r.accumulate, w.load) && |w.inits| == |r.members| && (w.treeThrew ==> r.accumulate)
    && (r.threads >= 2 ==> InitPool(r, w).pool.main.Finished?)
  }

  ghost predicate RequestOk(r: Request) {
    Sorted(NamesOf(r.members))
  }

  function Applied(tables: map<Name, Table>, entries: map<Name, Option<Table>>): map<Name, Table> {
    map n | n in tables.Keys + entries.Keys && (n in entries ==> entries[n].Some?) ::
      if n in entries then entries[n].value else tables[n]
  }

  /** The type of a member set, as the classifier was shown to answer. */
  ghost function TypeOf(f: Families, s: set<string>): Classified {
    if Whole(f, ContextType, s) then Of(ContextType)
    else if Whole(f, BackboneType, s) then Of(BackboneType)
    else if Whole(f, IterateType, s) then Of(IterateType)
    else if Whole(f, ConfigurationType, s) || Overlooked(f, s) then Of(ConfigurationType)
    else Incomplete
  }

  ghost function Type(f: Families, r: Request): Classified {
    TypeOf(f, AsSet(NamesOf(r.members)))
  }

  predicate Filtered(wanted: Wanted, t: GroupType) {
    (wanted.OnlyBackboneOrContext? && !t.ContextType? && !t.BackboneType?) || (wanted.OnlyBackbone? && !t.BackboneType?)
  }

  predicate Threaded(r: Request, t: GroupType) {
    t.ConfigurationType? && r.threads >= 2
  }

  ghost predicate HasScratch(members: seq<Member>) {
    exists i :: 0 <= i < |members| && members[i].version == SCRATCH
  }

  ghost predicate HasMissing(members: seq<Member>, tables: map<Name, Table>) {
    exists i :: 0 <= i < |members| && members[i].name !in tables
  }

  ghost predicate HasInit(members: seq<Member>, tables: map<Name, Table>, inits: seq<Init>, bad: set<Init>)
    requires |inits| == |members|
  {
    exists i :: 0 <= i < |members| && members[i].name in tables && inits[i] in bad
  }

  /** When initialising the members ends in an exception. */
  ghost predicate InitThrows(r: Request, t: GroupType, tables: map<Name, Table>, inits: seq<Init>)
    requires |inits| == |r.members|
  {
    || (r.tracked && HasScratch(r.members))
    || (if Threaded(r, t) then
          HasMissing(r.members, tables)
          || (!r.accumulate && HasInit(r.members, tables, inits, {RuntimeError, OtherError}))
        else
          !r.accumulate && HasInit(r.members, tables, inits, {RuntimeError}))
  }

  datatype Ending = NotLoaded | OnlyLoaded | Activated | Failed(thrown: bool)

  datatype Outcome = Outcome(manager: Manager, ending: Ending)

  ghost function Deactivated(f: Families, m: Manager, t: GroupType): Manager {
    var name := GroupOf(m, t).name;
    if name != "" then Destroyed(f, m, name, true) else m
  }

  /** One request, from the manager before to the manager after. */
  ghost function After(f: Families, m: Manager, r: Request, w: World): Outcome
    requires WorldOk(r, w)
  {
    if !w.found then Outcome(m, Failed(true))
    else if r.describeOnly && !r.typeAsked then Outcome(m, NotLoaded)
    else if Type(f, r).Incomplete? then Outcome(m, Failed(!r.accumulate))
    else if r.describeOnly then Outcome(m, NotLoaded)
    else if Filtered(r.wanted, Type(f, r).groupType) then Outcome(m, NotLoaded)
    else Performed(f, m, r, w, Type(f, r).groupType)
  }

  /** The request once its type is known and wanted. */
  ghost function Performed(f: Families, m: Manager, r: Request, w: World, t: GroupType): Outcome
    requires WorldOk(r, w)
  {
    var d := if r.activate then Deactivated(f, m, t) else m;
    var l := d.(tables := Applied(d.tables, w.load.entries));
    if w.load.threw || w.treeThrew then Outcome(l, Failed(!r.accumulate))
    else if !r.activate then Outcome(l, OnlyLoaded)
    else if InitThrows(r, t, l.tables, w.inits) then Outcome(l, Failed(!r.accumulate))
    else Outcome(Recorded(l, t, Group(r.name, Some(r.key))), Activated)
  }

  // ---------------------------------------------------------------------------
  // The manager itself
  // ---------------------------------------------------------------------------

  class ConfigurationManager {
    const families: Families
    var theContext: Group
    var theBackbone: Group
    var theIterate: Group
    var theConfiguration: Group
    var nameToTable: map<Name, Table>

    constructor (f: Families)
      ensures families == f && Now() == Manager(NONE, NONE, NONE, NONE, map[])
    {
      families := f;
      theContext, theBackbone, theIterate, theConfiguration := NONE, NONE, NONE, NONE;
      nameToTable := map[];
    }

    function Now(): Manager
      reads this
    {
      Manager(theContext, theBackbone, theIterate, theConfiguration, nameToTable)
    }

    /** The fixed context tables, and the optional one when it is there but not active. */
    method ActiveContextMemberNames() returns (names: set<Name>)
      ensures forall n :: n in names || n == families.optional <==> Belongs(families, ContextType, n)
    {
      names := families.context;
      if families.optional in nameToTable && nameToTable[families.optional].view.None? {
        names := names + {families.optional};
      }
    }

    /** Forgets the groups of that name and deactivates, or deletes, the tables of their classes. */
    method DestroyTableGroup(group: string, onlyDeactivate: bool) returns (threw: bool)
      modifies this
      ensures threw <==> group != "" && forall t :: GroupOf(old(Now()), t).name != group
      ensures Now() == if threw then old(Now()) else Destroyed(families, old(Now()), group, onlyDeactivate)
    {
      var isContext := group == "" || group == theContext.name;
      var isBackbone := group == "" || group == theBackbone.name;
      var isIterate := group == "" || group == theIterate.name;
      var isConfiguration := group == "" || group == theConfiguration.name;
      KnownSpelled(Now(), group);
      if !isContext && !isBackbone && !isIterate && !isConfiguration {
        return true;
      }
      threw := false;
      var contextNames := ActiveContextMemberNames();
      ghost var m := Now();
      ghost var seen: set<Name> := {};
      var todo := nameToTable.Keys;
      NoTableYet(families, m, group, onlyDeactivate);
      while todo != {}
        invariant todo !! seen && todo + seen == m.tables.Keys
        invariant theContext == m.context && theBackbone == m.backbone
        invariant theIterate == m.iterate && theConfiguration == m.configuration
        invariant nameToTable == TablesLeft(families, m, group, onlyDeactivate, seen)
        decreases todo
      {
        var n :| n in todo;
        var isC, isB, isI := n in contextNames, n in families.backbone, n in families.iterate;
        var hit := group == "" || (isContext && isC) || (isContext && n == families.optional) || (isBackbone && isB)
                   || (isIterate && isI) || (isConfiguration && !isC && n != families.optional && !isB && !isI);
        assert hit == Hit(families, m, group, n) by { HitByFlags(families, m, group, n, contextNames); }
        OneMoreTable(families, m, group, onlyDeactivate, seen, n);
        if hit {
          if onlyDeactivate {
            nameToTable := nameToTable[n := nameToTable[n].(view := None)];
          } else {
            nameToTable := nameToTable - {n};
          }
        }
        todo, seen := todo - {n}, seen + {n};
      }
      assert seen == m.tables.Keys;
      if isConfiguration { theConfiguration := NONE; }
      if isBackbone { theBackbone := NONE; }
      if isIterate { theIterate := NONE; }
      if isContext { theContext := NONE; }
    }

    /** Initialises the members one after the other. */
    method InitSequentially(r: Request, t: GroupType, w: World) returns (threw: bool)
      requires WorldOk(r, w) && !Threaded(r, t)
      ensures threw <==> InitThrows(r, t, nameToTable, w.inits)
    {
      for i := 0 to |r.members|
        invariant r.tracked ==> !HasScratch(r.members[..i])
        invariant !r.accumulate ==> !HasInit(r.members[..i], nameToTable, w.inits[..i], {RuntimeError})
      {
        if r.tracked && r.members[i].version == SCRATCH { return true; }
        var init := if r.members[i].name in nameToTable then w.inits[i] else OtherError;
        if init == RuntimeError && !r.accumulate { return true; }
      }
      assert r.members[..|r.members|] == r.members && w.inits[..|r.members|] == w.inits;
      return false;
    }

    /** Checks all members for scratch versions first, then initialises them in worker threads, under
        whatever schedule. */
    method InitThreaded(r: Request, t: GroupType, w: World) returns (threw: bool)
      requires RequestOk(r) && WorldOk(r, w) && Threaded(r, t)
      ensures threw <==> InitThrows(r, t, nameToTable, w.inits)
    {
      if r.tracked {
        for i := 0 to |r.members|
          invariant !HasScratch(r.members[..i])
        {
          if r.members[i].version == SCRATCH { return true; }
        }
        assert r.members[..|r.members|] == r.members;
      }
      for i := 0 to |r.members|
        invariant r.tracked ==> !HasScratch(r.members)
        invariant !HasMissing(r.members[..i], nameToTable)
      {
        if r.members[i].name !in nameToTable { return true; }
      }
      assert r.members[..|r.members|] == r.members;
      var threadErrors := InitPool(r, w).errors;
      InitPoolErrors(r, w, nameToTable);
      return threadErrors != multiset{} && !r.accumulate;
    }

    method Record(t: GroupType, g: Group)
      modifies this
      ensures Now() == Recorded(old(Now()), t, g)
    {
      match t
      case ContextType => theContext := g;
      case BackboneType => theBackbone := g;
      case IterateType => theIterate := g;
      case ConfigurationType => theConfiguration := g;
    }

    method LoadTableGroup(r: Request, w: World) returns (ending: Ending)
      requires Disjoint(families) && RequestOk(r) && WorldOk(r, w)
      modifies this
      ensures After(families, old(Now()), r, w) == Outcome(Now(), ending)
    {
      if !w.found { return Failed(true); }
      if r.describeOnly && !r.typeAsked { return NotLoaded; }
      var kind := GetTypeOfGroup(families, NamesOf(r.members));
      assert kind == Type(families, r);
      if kind.Incomplete? { return Failed(!r.accumulate); }
      if r.describeOnly { return NotLoaded; }
      var t := kind.groupType;
      if Filtered(r.wanted, t) { return NotLoaded; }
      ending := Perform(r, w, t);
    }

    method Perform(r: Request, w: World, t: GroupType) returns (ending: Ending)
      requires RequestOk(r) && WorldOk(r, w)
      modifies this
      ensures Performed(families, old(Now()), r, w, t) == Outcome(Now(), ending)
    {
      if r.activate {
        var group := GroupOf(Now(), t).name;
        if group != "" {
          var unknown := DestroyTableGroup(group, true);
        }
      }
      nameToTable := Applied(nameToTable, w.load.entries);
      if w.load.threw || w.treeThrew { return Failed(!r.accumulate); }
      if !r.activate { return OnlyLoaded; }
      var threw;
      if Threaded(r, t) {
        threw := InitThreaded(r, t, w);
      } else {
        threw := InitSequentially(r, t, w);
      }
      if threw { return Failed(!r.accumulate); }
      Record(t, Group(r.name, Some(r.key)));
      return Activated;
    }
  }

  /** The loop's own test, with the quirk of the optional table, is membership in a named class. */
  lemma HitByFlags(f: Families, m: Manager, name: string, n: Name, contextNames: set<Name>)
    requires n in contextNames || n == f.optional <==> Belongs(f, ContextType, n)
    ensures Hit(f, m, name, n) <==>
      || name == ""
      || (Names(m, name, ContextType) && n in contextNames)
      || (Names(m, name, ContextType) && n == f.optional)
      || (Names(m, name, BackboneType) && n in f.backbone)
      || (Names(m, name, IterateType) && n in f.iterate)
      || (Names(m, name, ConfigurationType) && n !in contextNames && n != f.optional && n !in f.backbone && n !in f.iterate)
  {
  }

  lemma NoTableYet(f: Families, m: Manager, name: string, onlyDeactivate: bool)
    ensures TablesLeft(f, m, name, onlyDeactivate, {}) == m.tables
  {
  }

  lemma OneMoreTable(f: Families, m: Manager, name: string, onlyDeactivate: bool, seen: set<Name>, n: Name)
    requires n in m.tables && n !in seen
    ensures var now := TablesLeft(f, m, name, onlyDeactivate, seen);
      && n in now
      && TablesLeft(f, m, name, onlyDeactivate, seen + {n}) ==
        if !Hit(f, m, name, n) then now else if onlyDeactivate then now[n := now[n].(view := None)] else now - {n}
  {
  }

  lemma DistinctMembers(members: seq<Member>)
    requires Sorted(NamesOf(members))
    ensures DistinctNames(members)
  {
    SortedIsDistinct(NamesOf(members));
    forall i, k | 0 <= i < k < |members| ensures members[i].name != members[k].name {
      assert NamesOf(members)[i] == members[i].name && NamesOf(members)[k] == members[k].name;
    }
  }

  /** For every schedule, the workers collect an error exactly if some table does not initialise well. */
  lemma InitPoolErrors(r: Request, w: World, tables: map<Name, Table>)
    requires RequestOk(r) && WorldOk(r, w) && r.threads >= 2 && !HasMissing(r.members, tables)
    ensures InitPool(r, w).errors != multiset{} <==> HasInit(r.members, tables, w.inits, {RuntimeError, OtherError})
  {
    DistinctMembers(r.members);
    JobErrors(InitJob(r.members, w.inits, r.threads), w.schedule);
    SomeComplaint(r.members, w.inits, r.threads);
  }

  lemma JobErrors(j: SlotPool.Job, schedule: seq<SlotPool.Actor>)
    requires SlotPool.ValidJob(j) && SlotPool.Run(j, SlotPool.Start(j), schedule).pool.main.Finished?
    ensures SlotPool.Run(j, SlotPool.Start(j), schedule).errors != multiset{} <==>
      exists i :: 0 <= i < |j.members| && Complaint(j.members[i], SlotPool.Answer(j, i)).Some?
  {
    SlotPool.StartIsGood(j);
    SlotPool.RunKeepsInv(j, SlotPool.Start(j), schedule);
    SlotPool.ErrorsAreComplaints(j, SlotPool.Run(j, SlotPool.Start(j), schedule));
    SlotPool.ComplaintsEmpty(j, 0);
  }

  lemma SomeComplaint(members: seq<Member>, inits: seq<Init>, threads: nat)
    requires |inits| == |members| && DistinctNames(members)
    ensures var j := InitJob(members, inits, threads);
      (exists i :: 0 <= i < |members| && Complaint(members[i], SlotPool.Answer(j, i)).Some?) <==>
      (exists i :: 0 <= i < |members| && inits[i] != Fine)
  {
    forall i | 0 <= i < |members|
      ensures Complaint(members[i], SlotPool.Answer(InitJob(members, inits, threads), i)).Some? <==> inits[i] != Fine
    {
      OwnInit(members, inits, threads, i);
    }
  }

  lemma OwnInit(members: seq<Member>, inits: seq<Init>, threads: nat, i: nat)
    requires |inits| == |members| && DistinctNames(members) && i < |members|
    ensures Complaint(members[i], SlotPool.Answer(InitJob(members, inits, threads), i)).Some? <==> inits[i] != Fine
  {
    assert InitFails(members, inits, members[i]) <==> inits[i] != Fine;
  }

  // ---------------------------------------------------------------------------
  // Classes
  // ---------------------------------------------------------------------------

  /** Every table is in the class of exactly one type. */
  lemma OneClass(f: Families, t: GroupType, u: GroupType, n: Name)
    requires Disjoint(f) && Owns(f, t, n)
    ensures Owns(f, u, n) <==> u == t
  {
  }

  lemma InSet(members: seq<Member>, n: Name)
    ensures IsMember(members, n) <==> n in AsSet(NamesOf(members))
  {
    var names := NamesOf(members);
    if IsMember(members, n) {
      var i :| 0 <= i < |members| && members[i].name == n;
      assert names[i] == n;
    }
  }

  /** The members of a group are inside the class of its type unless the classifier overlooked a family. */
  lemma InsideClass(f: Families, t: GroupType, s: set<string>)
    requires Disjoint(f) && TypeOf(f, s) == Of(t)
    ensures (forall n :: n in s ==> Owns(f, t, n)) <==> !(t.ConfigurationType? && Overlooked(f, s))
  {
    if t.ConfigurationType? && Overlooked(f, s) {
      var u: GroupType :| !u.ConfigurationType? && OverlookedAs(f, u, s);
      assert Family(f, u) <= s * Reserved(f);
      var n :| n in Family(f, u);
      assert n in s && !Owns(f, t, n);
    }
  }

  ghost predicate OverlookedRequest(f: Families, r: Request) {
    Type(f, r) == Of(ConfigurationType) && Overlooked(f, AsSet(NamesOf(r.members)))
  }

  // ---------------------------------------------------------------------------
  // How a request ends, in terms of what was asked and what the world answered
  // ---------------------------------------------------------------------------

  /** The request asks for groups of type t. */
  predicate Asked(r: Request, t: GroupType) {
    && (r.wanted == OnlyBackboneOrContext ==> t == ContextType || t == BackboneType)
    && (r.wanted == OnlyBackbone ==> t == BackboneType)
  }

  /** Member i has no table once the members are loaded: it was erased, or it was neither loaded nor there. */
  predicate NoTable(m: Manager, r: Request, w: World, i: nat)
    requires i < |r.members|
  {
    var n := r.members[i].name;
    if n in w.load.entries then w.load.entries[n] == None else n !in m.tables
  }

  /** Initialising goes through: no scratch version under tracking; in worker threads no member without a
      table and, without a warnings string, no error at all; otherwise, without one, no run-time error. */
  ghost predicate InitGoes(m: Manager, r: Request, w: World, t: GroupType)
    requires |w.inits| == |r.members|
  {
    && (r.tracked ==> forall i :: 0 <= i < |r.members| ==> r.members[i].version != 0x7FFF_FFFF)
    && if t == ConfigurationType && r.threads >= 2 then
         && (forall i :: 0 <= i < |r.members| ==> !NoTable(m, r, w, i))
         && (!r.accumulate ==> forall i :: 0 <= i < |r.members| ==> w.inits[i] == Fine)
       else
         !r.accumulate ==> forall i :: 0 <= i < |r.members| ==> w.inits[i] != RuntimeError || NoTable(m, r, w, i)
  }

  /** The tables are there as `NoTable` says, whatever was deactivated. */
  lemma TablesThere(f: Families, m: Manager, r: Request, w: World, t: GroupType, i: nat)
    requires i < |r.members|
    ensures r.members[i].name !in Applied(Cleared(f, m, r, t).tables, w.load.entries) <==> NoTable(m, r, w, i)
  {
    var n := r.members[i].name;
    ClearedKeepsNames(f, m, r, t, n);
    AppliedLookup(Cleared(f, m, r, t).tables, w.load.entries, n);
  }

  lemma ClearedKeepsNames(f: Families, m: Manager, r: Request, t: GroupType, n: Name)
    ensures n in Cleared(f, m, r, t).tables <==> n in m.tables
  {
  }

  lemma InitGoesExactly(f: Families, m: Manager, r: Request, w: World, t: GroupType)
    requires WorldOk(r, w)
    ensures InitGoes(m, r, w, t) <==> !InitThrows(r, t, Applied(Cleared(f, m, r, t).tables, w.load.entries), w.inits)
  {
    var tables := Applied(Cleared(f, m, r, t).tables, w.load.entries);
    forall i | 0 <= i < |r.members| ensures r.members[i].name !in tables <==> NoTable(m, r, w, i) {
      TablesThere(f, m, r, w, t, i);
    }
    InitThrowsSpelled(r, t, tables, w.inits);
  }

  lemma InitThrowsSpelled(r: Request, t: GroupType, tables: map<Name, Table>, inits: seq<Init>)
    requires |inits| == |r.members|
    ensures !InitThrows(r, t, tables, inits) <==>
      && (r.tracked ==> forall i :: 0 <= i < |r.members| ==> r.members[i].version != 0x7FFF_FFFF)
      && if t == ConfigurationType && r.threads >= 2 then
           && (forall i :: 0 <= i < |r.members| ==> r.members[i].name in tables)
           && (!r.accumulate ==> forall i :: 0 <= i < |r.members| ==> inits[i] == Fine)
         else
           !r.accumulate ==> forall i :: 0 <= i < |r.members| ==> inits[i] != RuntimeError || r.members[i].name !in tables
  {
  }

  /** Every ending, exactly. A request activates if and only if its group is found, its type is known and
      asked for, loading and the tree check go through and initialising does; it loads nothing if and only
      if it only describes, or its type is not asked for; it only loads if and only if it does not activate;
      and what else happens is a failure, thrown unless it was swallowed into a warnings string. */
  lemma EndingExactly(f: Families, m: Manager, r: Request, w: World)
    requires WorldOk(r, w)
    ensures var ending := After(f, m, r, w).ending;
      && (ending == Activated <==>
            && w.found && !r.describeOnly && r.activate && Type(f, r).Of? && Asked(r, Type(f, r).groupType)
            && !w.load.threw && !w.treeThrew && InitGoes(m, r, w, Type(f, r).groupType))
      && (ending == OnlyLoaded <==>
            && w.found && !r.describeOnly && !r.activate && Type(f, r).Of? && Asked(r, Type(f, r).groupType)
            && !w.load.threw && !w.treeThrew)
      && (ending == NotLoaded <==>
            w.found && if r.describeOnly then !r.typeAsked || Type(f, r).Of?
                       else Type(f, r).Of? && !Asked(r, Type(f, r).groupType))
      && (ending.Failed? ==> (ending.thrown <==> !w.found || !r.accumulate))
  {
    if Type(f, r).Of? { InitGoesExactly(f, m, r, w, Type(f, r).groupType); }
  }

  // ---------------------------------------------------------------------------
  // One request
  // ---------------------------------------------------------------------------

  /** The request gets as far as replacing the active group of its type. */
  ghost predicate Replaces(f: Families, r: Request, w: World) {
    && w.found && r.activate && !r.describeOnly && Type(f, r).Of?
    && !Filtered(r.wanted, Type(f, r).groupType)
  }

  /** The recorded group of every type after a request: the requested pair exactly on success;
      otherwise given up exactly if its name is that of the replaced group; otherwise unchanged. */
  lemma GroupsAfter(f: Families, m: Manager, r: Request, w: World, u: GroupType)
    requires WorldOk(r, w)
    ensures var a := After(f, m, r, w);
      && (a.ending.Activated? ==> Replaces(f, r, w))
      && GroupOf(a.manager, u) ==
        if a.ending.Activated? && Type(f, r) == Of(u) then Group(r.name, Some(r.key))
        else if Replaces(f, r, w) && GroupOf(m, Type(f, r).groupType).name != ""
                && GroupOf(m, u).name == GroupOf(m, Type(f, r).groupType).name then NONE
        else GroupOf(m, u)
  {
  }

  /** Replacing touches no table outside the class of the type, unless its name is shared or a family overlooked. */
  lemma TablesAfter(f: Families, m: Manager, r: Request, w: World, u: GroupType, n: Name)
    requires Disjoint(f) && WorldOk(r, w) && Type(f, r).Of? && u != Type(f, r).groupType && Owns(f, u, n)
    requires GroupOf(m, u).name != GroupOf(m, Type(f, r).groupType).name || GroupOf(m, u).name == ""
    requires !OverlookedRequest(f, r)
    ensures Lookup(After(f, m, r, w).manager.tables, n) == Lookup(m.tables, n)
  {
    OutsideEntries(f, r, w, u, n);
    if Loading(f, r, w) {
      AfterLoading(f, m, r, w);
      var d := Cleared(f, m, r, Type(f, r).groupType);
      ClearedElsewhere(f, m, r, Type(f, r).groupType, u, n);
      AppliedLookup(d.tables, w.load.entries, n);
    } else {
      assert After(f, m, r, w).manager == m;
    }
  }

  /** The request gets as far as loading its members. */
  ghost predicate Loading(f: Families, r: Request, w: World) {
    w.found && !r.describeOnly && Type(f, r).Of? && !Filtered(r.wanted, Type(f, r).groupType)
  }

  /** The manager as the members are loaded into it. */
  ghost function Cleared(f: Families, m: Manager, r: Request, t: GroupType): Manager {
    if r.activate then Deactivated(f, m, t) else m
  }

  /** What a request does to the tables, whatever its ending. */
  lemma AfterLoading(f: Families, m: Manager, r: Request, w: World)
    requires WorldOk(r, w) && Loading(f, r, w)
    ensures After(f, m, r, w).manager.tables == Applied(Cleared(f, m, r, Type(f, r).groupType).tables, w.load.entries)
  {
  }

  lemma AppliedLookup(tables: map<Name, Table>, entries: map<Name, Option<Table>>, n: Name)
    ensures Lookup(Applied(tables, entries), n) == if n in entries then entries[n] else Lookup(tables, n)
  {
  }

  lemma ClearedElsewhere(f: Families, m: Manager, r: Request, t: GroupType, u: GroupType, n: Name)
    requires Disjoint(f) && u != t && Owns(f, u, n)
    requires GroupOf(m, u).name != GroupOf(m, t).name || GroupOf(m, u).name == ""
    ensures Lookup(Cleared(f, m, r, t).tables, n) == Lookup(m.tables, n)
  {
    if GroupOf(m, t).name != "" { OtherClassKept(f, m, t, u, n); }
  }

  lemma OutsideEntries(f: Families, r: Request, w: World, u: GroupType, n: Name)
    requires Disjoint(f) && WorldOk(r, w) && Type(f, r).Of? && u != Type(f, r).groupType && Owns(f, u, n)
    requires !OverlookedRequest(f, r)
    ensures n !in w.load.entries
  {
    InsideClass(f, Type(f, r).groupType, AsSet(NamesOf(r.members)));
    InSet(r.members, n);
    OneClass(f, u, Type(f, r).groupType, n);
  }

  lemma OtherClassKept(f: Families, m: Manager, t: GroupType, u: GroupType, n: Name)
    requires Disjoint(f) && u != t && Owns(f, u, n)
    requires GroupOf(m, t).name != "" && GroupOf(m, u).name != GroupOf(m, t).name
    ensures Lookup(Deactivated(f, m, t).tables, n) == Lookup(m.tables, n)
  {
    forall v: GroupType | v != u ensures !Owns(f, v, n) { OneClass(f, u, v, n); }
    assert !Hit(f, m, GroupOf(m, t).name, n);
  }

  /** An overlooked family is taken over: one of its tables ends at the version of a group of another type. */
  lemma OverlookedTakesOver(f: Families, m: Manager, r: Request, w: World) returns (i: nat, u: GroupType)
    requires Disjoint(f) && WorldOk(r, w) && OverlookedRequest(f, r)
    requires After(f, m, r, w).ending.Activated? && !w.load.warned
    ensures i < |r.members| && u != ConfigurationType
    ensures ActiveIn(f, After(f, m, r, w).manager, u, r.members[i].name) == Some(r.members[i].version)
  {
    var s := AsSet(NamesOf(r.members));
    InsideClass(f, ConfigurationType, s);
    var n :| n in s && !Owns(f, ConfigurationType, n);
    InSet(r.members, n);
    i :| 0 <= i < |r.members| && r.members[i].name == n;
    u := FamilyOf(f, n);
    MembersActive(f, m, r, w, i);
  }

  lemma FamilyOf(f: Families, n: Name) returns (u: GroupType)
    requires !Owns(f, ConfigurationType, n)
    ensures u != ConfigurationType && Owns(f, u, n)
  {
    u := if Belongs(f, ContextType, n) then ContextType else if Belongs(f, BackboneType, n) then BackboneType else IterateType;
  }

  lemma MembersActive(f: Families, m: Manager, r: Request, w: World, i: nat)
    requires WorldOk(r, w) && i < |r.members|
    requires After(f, m, r, w).ending.Activated? && !w.load.warned
    ensures var tables := After(f, m, r, w).manager.tables;
      r.members[i].name in tables && tables[r.members[i].name].view == Some(r.members[i].version)
  {
    assert r.members[i].name in w.load.entries;
  }

  /** The active version of a table of a class. */
  function ActiveIn(f: Families, m: Manager, t: GroupType, n: Name): Option<nat> {
    if Owns(f, t, n) && n in m.tables then m.tables[n].view else None
  }

  /** The version a member list gives a name. */
  ghost predicate Lists(members: seq<Member>, n: Name, v: Option<nat>) {
    if v.None? then !IsMember(members, n) else exists i :: 0 <= i < |members| && members[i] == Member(n, v.value)
  }

  /** After a success without complaints the members are active, each at its version; another table
      of the class is active exactly if it was before and there was no group to replace. */
  lemma ActiveAfter(f: Families, m: Manager, r: Request, w: World, n: Name)
    requires Disjoint(f) && WorldOk(r, w)
    requires After(f, m, r, w).ending.Activated? && !w.load.warned
    requires Owns(f, Type(f, r).groupType, n)
    ensures var t := Type(f, r).groupType; var v := ActiveIn(f, After(f, m, r, w).manager, t, n);
      if IsMember(r.members, n) then v.Some? && Lists(r.members, n, v)
      else v == if GroupOf(m, t).name == "" then ActiveIn(f, m, t, n) else None
  {
    var t := Type(f, r).groupType;
    if IsMember(r.members, n) {
      var i :| 0 <= i < |r.members| && r.members[i].name == n;
      assert r.members[i] == Member(n, r.members[i].version);
      assert w.load.entries[n].value.view == Some(r.members[i].version);
    } else {
      assert n !in w.load.entries;
      if GroupOf(m, t).name != "" {
        assert Names(m, GroupOf(m, t).name, t) && Hit(f, m, GroupOf(m, t).name, n);
      }
    }
  }

  /** A failed activation leaves its members active without a group, and the next success does not clear them. */
  lemma StaleAfterFailure(f: Families, m: Manager, r: Request, w: World, r': Request, w': World, n: Name)
    requires Disjoint(f) && WorldOk(r, w) && WorldOk(r', w') && Type(f, r) == Type(f, r') && Type(f, r).Of?
    requires Replaces(f, r, w) && !w.load.threw && !w.load.warned && After(f, m, r, w).ending.Failed?
    requires After(f, After(f, m, r, w).manager, r', w').ending.Activated? && !w'.load.warned
    requires IsMember(r.members, n) && !IsMember(r'.members, n) && Owns(f, Type(f, r).groupType, n)
    ensures ActiveIn(f, After(f, After(f, m, r, w).manager, r', w').manager, Type(f, r).groupType, n).Some?
  {
    var t := Type(f, r).groupType;
    var l := After(f, m, r, w).manager;
    GroupsAfter(f, m, r, w, t);
    assert GroupOf(l, t).name == "";
    assert ActiveIn(f, l, t, n).Some?;
    ActiveAfter(f, l, r', w', n);
  }

  // ---------------------------------------------------------------------------
  // Runs
  // ---------------------------------------------------------------------------

  datatype Event = Call(request: Request, world: World) | Destroy(name: string, onlyDeactivate: bool)

  const START := Manager(NONE, NONE, NONE, NONE, map[])

  /** A well-formed call; group names are not empty and each stands for groups of one type. */
  ghost predicate EventOk(f: Families, kinds: map<string, GroupType>, e: Event) {
    e.Call? ==>
      && RequestOk(e.request) && WorldOk(e.request, e.world) && e.request.name != ""
      && e.request.name in kinds && (Type(f, e.request).Of? ==> Type(f, e.request).groupType == kinds[e.request.name])
  }

  ghost predicate EventsOk(f: Families, kinds: map<string, GroupType>, events: seq<Event>) {
    forall i :: 0 <= i < |events| ==> EventOk(f, kinds, events[i])
  }

  ghost function Step(f: Families, m: Manager, e: Event): Manager
    requires e.Call? ==> WorldOk(e.request, e.world)
  {
    match e
    case Call(r, w) => After(f, m, r, w).manager
    case Destroy(name, only) => if Known(m, name) then Destroyed(f, m, name, only) else m
  }

  ghost function Run(f: Families, kinds: map<string, GroupType>, events: seq<Event>): Manager
    requires EventsOk(f, kinds, events)
  {
    if events == [] then START
    else
      var n := |events| - 1;
      assert EventOk(f, kinds, events[n]);
      Step(f, Run(f, kinds, events[..n]), events[n])
  }

  /** A type has no group, or a group whose name stands for that type. */
  ghost predicate Orderly(kinds: map<string, GroupType>, m: Manager) {
    forall t :: GroupOrderly(kinds, t, GroupOf(m, t))
  }

  predicate GroupOrderly(kinds: map<string, GroupType>, t: GroupType, g: Group) {
    g == NONE || (g.name != "" && g.key.Some? && g.name in kinds && kinds[g.name] == t)
  }

  lemma {:induction false} RunIsOrderly(f: Families, kinds: map<string, GroupType>, events: seq<Event>)
    requires EventsOk(f, kinds, events)
    ensures Orderly(kinds, Run(f, kinds, events))
  {
    if events != [] {
      var n := |events| - 1;
      RunIsOrderly(f, kinds, events[..n]);
      var m := Run(f, kinds, events[..n]);
      assert EventOk(f, kinds, events[n]);
      if events[n].Call? {
        forall t ensures GroupOrderly(kinds, t, GroupOf(Step(f, m, events[n]), t)) {
          GroupsAfter(f, m, events[n].request, events[n].world, t);
          assert GroupOrderly(kinds, t, GroupOf(m, t));
        }
      } else {
        forall t ensures GroupOrderly(kinds, t, GroupOf(Step(f, m, events[n]), t)) {
          assert GroupOrderly(kinds, t, GroupOf(m, t));
        }
      }
    }
  }

  /** After any run, a request for one type leaves the groups and the tables of the other types alone,
      records exactly what was requested on success, and otherwise leaves its type as it was or without a group. */
  lemma ActivationsAreIndependent(f: Families, kinds: map<string, GroupType>, events: seq<Event>, r: Request, w: World, u: GroupType)
    requires Disjoint(f) && EventsOk(f, kinds, events) && EventOk(f, kinds, Call(r, w))
    ensures var m := Run(f, kinds, events); var a := After(f, m, r, w);
      && (Type(f, r) != Of(u) ==> GroupOf(a.manager, u) == GroupOf(m, u))
      && (a.ending.Activated? && Type(f, r) == Of(u) ==> GroupOf(a.manager, u) == Group(r.name, Some(r.key)))
      && (!a.ending.Activated? ==> GroupOf(a.manager, u) in {GroupOf(m, u), NONE})
    ensures var m := Run(f, kinds, events); var a := After(f, m, r, w);
      Type(f, r) != Of(u) && !OverlookedRequest(f, r) ==>
        forall n :: Owns(f, u, n) ==> Lookup(a.manager.tables, n) == Lookup(m.tables, n)
  {
    var m := Run(f, kinds, events);
    RunIsOrderly(f, kinds, events);
    assert GroupOrderly(kinds, u, GroupOf(m, u));
    GroupsAfter(f, m, r, w, u);
    if Type(f, r).Of? {
      assert GroupOrderly(kinds, Type(f, r).groupType, GroupOf(m, Type(f, r).groupType));
      if Type(f, r) != Of(u) && !OverlookedRequest(f, r) {
        forall n | Owns(f, u, n) ensures Lookup(After(f, m, r, w).manager.tables, n) == Lookup(m.tables, n) {
          TablesAfter(f, m, r, w, u, n);
        }
      }
    }
  }

  // ---------------------------------------------------------------------------
  // Where a recorded group comes from
  // ---------------------------------------------------------------------------

  /** Event i activated the group that type t still has at the end of the run. */
  ghost predicate RecordedBy(f: Families, kinds: map<string, GroupType>, events: seq<Event>, t: GroupType, i: nat)
    requires EventsOk(f, kinds, events)
  {
    && i < |events| && events[i].Call? && WorldOk(events[i].request, events[i].world)
    && Type(f, events[i].request) == Of(t)
    && After(f, Run(f, kinds, events[..i]), events[i].request, events[i].world).ending.Activated?
    && GroupOf(Run(f, kinds, events), t) == Group(events[i].request.name, Some(events[i].request.key))
    && forall k :: i < k <= |events| ==> GroupOf(Run(f, kinds, events[..k]), t) == GroupOf(Run(f, kinds, events), t)
  }

  lemma StillRecorded(f: Families, kinds: map<string, GroupType>, events: seq<Event>, t: GroupType, i: nat)
    requires EventsOk(f, kinds, events) && events != []
    requires EventsOk(f, kinds, events[..|events| - 1]) && RecordedBy(f, kinds, events[..|events| - 1], t, i)
    requires GroupOf(Run(f, kinds, events), t) == GroupOf(Run(f, kinds, events[..|events| - 1]), t)
    ensures RecordedBy(f, kinds, events, t, i)
  {
    var before := events[..|events| - 1];
    assert before[..i] == events[..i] && before[i] == events[i];
    forall k | i < k <= |events| ensures GroupOf(Run(f, kinds, events[..k]), t) == GroupOf(Run(f, kinds, events), t) {
      if k == |events| {
        assert events[..k] == events;
      } else {
        assert events[..k] == before[..k];
      }
    }
  }

  lemma JustRecorded(f: Families, kinds: map<string, GroupType>, events: seq<Event>, t: GroupType)
    requires EventsOk(f, kinds, events) && events != []
    requires var n := |events| - 1;
      && events[n].Call? && WorldOk(events[n].request, events[n].world) && Type(f, events[n].request) == Of(t)
      && After(f, Run(f, kinds, events[..n]), events[n].request, events[n].world).ending.Activated?
    ensures RecordedBy(f, kinds, events, t, |events| - 1)
  {
    var n := |events| - 1;
    GroupsAfter(f, Run(f, kinds, events[..n]), events[n].request, events[n].world, t);
    assert events[..|events|] == events;
  }

  /** A request that succeeds under version tracking has no scratch member. */
  lemma NoScratchActivated(f: Families, m: Manager, r: Request, w: World)
    requires WorldOk(r, w) && After(f, m, r, w).ending.Activated? && r.tracked
    ensures !HasScratch(r.members)
  {
  }

  /** Every group recorded at the end of a run was put there by a successful request for it, kept
      since then, and has no scratch member if that request was under version tracking. */
  lemma {:induction false} Provenance(f: Families, kinds: map<string, GroupType>, events: seq<Event>, t: GroupType) returns (i: nat)
    requires EventsOk(f, kinds, events) && GroupOf(Run(f, kinds, events), t) != NONE
    ensures RecordedBy(f, kinds, events, t, i)
    ensures events[i].request.tracked ==> !HasScratch(events[i].request.members)
    decreases |events|
  {
    var n := |events| - 1;
    var m := Run(f, kinds, events[..n]);
    assert EventOk(f, kinds, events[n]);
    if events[n].Call? {
      GroupsAfter(f, m, events[n].request, events[n].world, t);
      if After(f, m, events[n].request, events[n].world).ending.Activated? && Type(f, events[n].request) == Of(t) {
        i := n;
        JustRecorded(f, kinds, events, t);
        if events[n].request.tracked { NoScratchActivated(f, m, events[n].request, events[n].world); }
        return;
      }
    }
    i := Provenance(f, kinds, events[..n], t);
    StillRecorded(f, kinds, events, t, i);
  }

  // ---------------------------------------------------------------------------
  // Tidy runs: the active tables are exactly the members
  // ---------------------------------------------------------------------------

  /** An event that activates cleanly, changes nothing, or destroys. */
  ghost predicate Tidy(f: Families, m: Manager, e: Event)
    requires e.Call? ==> WorldOk(e.request, e.world)
  {
    e.Call? ==>
      var a := After(f, m, e.request, e.world);
      (a.ending.Activated? && !e.world.load.warned && !OverlookedRequest(f, e.request)) || a.manager == m
  }

  ghost predicate TidyRun(f: Families, kinds: map<string, GroupType>, events: seq<Event>)
    requires EventsOk(f, kinds, events)
  {
    forall i :: 0 <= i < |events| ==> EventOk(f, kinds, events[i]) && Tidy(f, Run(f, kinds, events[..i]), events[i])
  }

  /** The active tables of a class are those of a member list. */
  ghost predicate Exactly(f: Families, m: Manager, t: GroupType, members: seq<Member>) {
    forall n :: Owns(f, t, n) ==> Lists(members, n, ActiveIn(f, m, t, n))
  }

  lemma ExactlyKept(f: Families, m: Manager, m': Manager, t: GroupType, members: seq<Member>)
    requires Exactly(f, m, t, members)
    requires forall n :: Owns(f, t, n) ==> Lookup(m'.tables, n) == Lookup(m.tables, n)
    ensures Exactly(f, m', t, members)
  {
    forall n | Owns(f, t, n) ensures Lists(members, n, ActiveIn(f, m', t, n)) {
      assert Lookup(m'.tables, n) == Lookup(m.tables, n);
      assert ActiveIn(f, m', t, n) == ActiveIn(f, m, t, n);
    }
  }

  /** Giving a group up, or with the empty name all of them: the types of that name lose their group and
      their tables are deactivated or deleted; every other type keeps both. */
  lemma DestroyedTables(f: Families, m: Manager, name: string, only: bool, t: GroupType, n: Name)
    requires Disjoint(f) && Owns(f, t, n)
    ensures var d := Destroyed(f, m, name, only);
      if name == "" || GroupOf(m, t).name == name then
        GroupOf(d, t) == Group("", None)
        && Lookup(d.tables, n) == if only && n in m.tables then Some(Table(m.tables[n].id, None)) else None
      else GroupOf(d, t) == GroupOf(m, t) && Lookup(d.tables, n) == Lookup(m.tables, n)
  {
    forall u: GroupType | u != t ensures !Owns(f, u, n) { OneClass(f, t, u, n); }
    assert Hit(f, m, name, n) <==> Names(m, name, t);
  }

  /** The active tables of the class are those of the group that event i recorded, or none without a group. */
  ghost predicate Settled(f: Families, kinds: map<string, GroupType>, events: seq<Event>, t: GroupType, i: nat)
    requires EventsOk(f, kinds, events)
  {
    if GroupOf(Run(f, kinds, events), t) == NONE then Exactly(f, Run(f, kinds, events), t, [])
    else RecordedBy(f, kinds, events, t, i) && Exactly(f, Run(f, kinds, events), t, events[i].request.members)
  }

  /** In a tidy run the active tables of every class are at all times exactly the members of the
      recorded group, each at its version, and none if no group is recorded. */
  lemma {:induction false} ActiveTablesAreMembers(f: Families, kinds: map<string, GroupType>, events: seq<Event>, t: GroupType)
    returns (i: nat)
    requires Disjoint(f) && EventsOk(f, kinds, events) && TidyRun(f, kinds, events)
    ensures Settled(f, kinds, events, t, i)
    decreases |events|
  {
    i := 0;
    if events == [] { return; }
    var n := |events| - 1;
    var before := events[..n];
    assert TidyRun(f, kinds, before) by {
      forall k | 0 <= k < |before| ensures EventOk(f, kinds, before[k]) && Tidy(f, Run(f, kinds, before[..k]), before[k]) {
        assert before[..k] == events[..k] && before[k] == events[k];
      }
    }
    i := ActiveTablesAreMembers(f, kinds, before, t);
    assert EventOk(f, kinds, events[n]) && Tidy(f, Run(f, kinds, before), events[n]);
    if events[n].Destroy? {
      SettledByDestroy(f, kinds, events, t, i);
    } else {
      i := SettledByCall(f, kinds, events, t, i);
    }
  }

  /** A step that leaves the type's group and tables alone. */
  lemma SettledByKeeping(f: Families, kinds: map<string, GroupType>, events: seq<Event>, t: GroupType, i: nat)
    requires events != [] && EventsOk(f, kinds, events) && EventsOk(f, kinds, events[..|events| - 1])
    requires Settled(f, kinds, events[..|events| - 1], t, i)
    requires var m, m' := Run(f, kinds, events[..|events| - 1]), Run(f, kinds, events);
      && GroupOf(m', t) == GroupOf(m, t)
      && forall n :: Owns(f, t, n) ==> Lookup(m'.tables, n) == Lookup(m.tables, n)
    ensures Settled(f, kinds, events, t, i)
  {
    var before := events[..|events| - 1];
    var m := Run(f, kinds, before);
    if GroupOf(m, t) == NONE {
      ExactlyKept(f, m, Run(f, kinds, events), t, []);
    } else {
      StillRecorded(f, kinds, events, t, i);
      assert before[i] == events[i];
      ExactlyKept(f, m, Run(f, kinds, events), t, events[i].request.members);
    }
  }

  lemma SettledByDestroy(f: Families, kinds: map<string, GroupType>, events: seq<Event>, t: GroupType, i: nat)
    requires Disjoint(f) && events != [] && EventsOk(f, kinds, events) && EventsOk(f, kinds, events[..|events| - 1])
    requires events[|events| - 1].Destroy? && Settled(f, kinds, events[..|events| - 1], t, i)
    ensures Settled(f, kinds, events, t, i)
  {
    var m := Run(f, kinds, events[..|events| - 1]);
    var e := events[|events| - 1];
    RunIsOrderly(f, kinds, events[..|events| - 1]);
    if Known(m, e.name) && Names(m, e.name, t) {
      DestroyedExactly(f, kinds, m, e.name, e.onlyDeactivate, t);
    } else {
      DestroyKeeps(f, kinds, m, e.name, e.onlyDeactivate, t);
      SettledByKeeping(f, kinds, events, t, i);
    }
  }

  lemma SettledByCall(f: Families, kinds: map<string, GroupType>, events: seq<Event>, t: GroupType, i: nat) returns (i': nat)
    requires Disjoint(f) && events != [] && EventsOk(f, kinds, events) && EventsOk(f, kinds, events[..|events| - 1])
    requires var e := events[|events| - 1];
      e.Call? && EventOk(f, kinds, e) && Tidy(f, Run(f, kinds, events[..|events| - 1]), e)
    requires Settled(f, kinds, events[..|events| - 1], t, i)
    ensures Settled(f, kinds, events, t, i')
  {
    i' := i;
    var before := events[..|events| - 1];
    var m := Run(f, kinds, before);
    var e := events[|events| - 1];
    if After(f, m, e.request, e.world).manager == m {
      SettledByKeeping(f, kinds, events, t, i);
    } else if Type(f, e.request) == Of(t) {
      i' := |events| - 1;
      JustRecorded(f, kinds, events, t);
      RunIsOrderly(f, kinds, before);
      assert GroupOrderly(kinds, t, GroupOf(m, t));
      ActivatedExactly(f, m, e.request, e.world, t);
    } else {
      ActivationsAreIndependent(f, kinds, before, e.request, e.world, t);
      SettledByKeeping(f, kinds, events, t, i);
    }
  }

  lemma ActivatedExactly(f: Families, m: Manager, r: Request, w: World, t: GroupType)
    requires Disjoint(f) && WorldOk(r, w) && Type(f, r) == Of(t)
    requires After(f, m, r, w).ending.Activated? && !w.load.warned
    requires GroupOf(m, t).name == "" ==> Exactly(f, m, t, [])
    ensures Exactly(f, After(f, m, r, w).manager, t, r.members)
  {
    var a := After(f, m, r, w).manager;
    forall n | Owns(f, t, n) ensures Lists(r.members, n, ActiveIn(f, a, t, n)) {
      ActiveAfter(f, m, r, w, n);
      if GroupOf(m, t).name == "" {
        assert Lists([], n, ActiveIn(f, m, t, n));
      }
    }
  }

  lemma DestroyedExactly(f: Families, kinds: map<string, GroupType>, m: Manager, name: string, only: bool, t: GroupType)
    requires Disjoint(f) && Orderly(kinds, m) && Names(m, name, t)
    ensures GroupOf(Destroyed(f, m, name, only), t) == NONE
    ensures Exactly(f, Destroyed(f, m, name, only), t, [])
  {
    forall n | Owns(f, t, n) ensures Lists([], n, ActiveIn(f, Destroyed(f, m, name, only), t, n)) {
      DestroyedTables(f, m, name, only, t, n);
    }
  }

  lemma DestroyKeeps(f: Families, kinds: map<string, GroupType>, m: Manager, name: string, only: bool, t: GroupType)
    requires Disjoint(f) && Orderly(kinds, m) && !(Known(m, name) && Names(m, name, t))
    ensures GroupOf(Step(f, m, Destroy(name, only)), t) == GroupOf(m, t)
    ensures forall n :: Owns(f, t, n) ==> Lookup(Step(f, m, Destroy(name, only)).tables, n) == Lookup(m.tables, n)
  {
    if Known(m, name) {
      forall n | Owns(f, t, n) ensures Lookup(Destroyed(f, m, name, only).tables, n) == Lookup(m.tables, n) {
        DestroyedTables(f, m, name, only, t, n);
      }
    }
  }

  // ---------------------------------------------------------------------------
  // Every run: which tables are active
  // ---------------------------------------------------------------------------

  /** The event loads table n, or erases it. */
  ghost predicate Loads(f: Families, e: Event, n: Name) {
    e.Call? && Loading(f, e.request, e.world) && n in e.world.load.entries
  }

  /** The view a load leaves table n with. */
  function LoadedView(e: Event, n: Name): Option<nat>
    requires e.Call? && n in e.world.load.entries
  {
    if e.world.load.entries[n].None? then None else e.world.load.entries[n].value.view
  }

  /** The event gives up the group of type t, and with it all tables of its class. */
  ghost predicate Clears(f: Families, m: Manager, e: Event, t: GroupType) {
    match e
    case Destroy(name, _) => Names(m, name, t)
    case Call(r, w) =>
      Replaces(f, r, w) && GroupOf(m, Type(f, r).groupType).name != ""
      && GroupOf(m, t).name == GroupOf(m, Type(f, r).groupType).name
  }

  /** What one event does to a table of class t. */
  lemma TableAfterEvent(f: Families, m: Manager, e: Event, t: GroupType, n: Name)
    requires Disjoint(f) && Owns(f, t, n) && (e.Call? ==> WorldOk(e.request, e.world))
    ensures ActiveIn(f, Step(f, m, e), t, n) ==
      match MarkOf(f, m, e, t, n)
      case MarkLoad(view) => view
      case Clearing => None
      case Nothing => ActiveIn(f, m, t, n)
  {
    forall u: GroupType | u != t ensures !Owns(f, u, n) { OneClass(f, t, u, n); }
    match e
    case Destroy(name, only) => DestroyedTable(f, m, name, only, t, n);
    case Call(r, w) =>
      if Loading(f, r, w) {
        LoadedTable(f, m, r, w, t, n);
      } else {
        assert After(f, m, r, w).manager == m;
      }
  }

  lemma DestroyedTable(f: Families, m: Manager, name: string, only: bool, t: GroupType, n: Name)
    requires Disjoint(f) && Owns(f, t, n) && forall v: GroupType :: v != t ==> !Owns(f, v, n)
    ensures ActiveIn(f, Step(f, m, Destroy(name, only)), t, n) == if Names(m, name, t) then None else ActiveIn(f, m, t, n)
  {
    assert Hit(f, m, name, n) <==> Names(m, name, t);
  }

  /** A request that gets as far as loading. */
  lemma LoadedTable(f: Families, m: Manager, r: Request, w: World, t: GroupType, n: Name)
    requires Disjoint(f) && WorldOk(r, w) && Loading(f, r, w)
    requires Owns(f, t, n) && forall v: GroupType :: v != t ==> !Owns(f, v, n)
    ensures var u := Type(f, r).groupType;
      ActiveIn(f, After(f, m, r, w).manager, t, n) ==
      if n in w.load.entries then LoadedView(Call(r, w), n)
      else if r.activate && GroupOf(m, u).name != "" && GroupOf(m, t).name == GroupOf(m, u).name then None
      else ActiveIn(f, m, t, n)
  {
    var u := Type(f, r).groupType;
    AfterLoading(f, m, r, w);
    DeactivatedTable(f, m, u, t, n);
    AppliedView(f, Cleared(f, m, r, u), After(f, m, r, w).manager, w.load.entries, t, n);
  }

  lemma AppliedView(f: Families, d: Manager, l: Manager, entries: map<Name, Option<Table>>, t: GroupType, n: Name)
    requires l.tables == Applied(d.tables, entries) && Owns(f, t, n)
    ensures ActiveIn(f, l, t, n) ==
      if n !in entries then ActiveIn(f, d, t, n) else if entries[n].None? then None else entries[n].value.view
  {
  }

  lemma DeactivatedTable(f: Families, m: Manager, u: GroupType, t: GroupType, n: Name)
    requires Disjoint(f) && Owns(f, t, n) && forall v: GroupType :: v != t ==> !Owns(f, v, n)
    ensures ActiveIn(f, Deactivated(f, m, u), t, n) ==
      if GroupOf(m, u).name != "" && GroupOf(m, t).name == GroupOf(m, u).name then None else ActiveIn(f, m, t, n)
  {
    var name := GroupOf(m, u).name;
    if name != "" { assert Hit(f, m, name, n) <==> Names(m, name, t); }
  }

  /** What an event does to a table: load it with a view or without one, clear its class, or nothing. */
  datatype Mark = MarkLoad(view: Option<nat>) | Clearing | Nothing

  ghost function MarkOf(f: Families, m: Manager, e: Event, t: GroupType, n: Name): Mark {
    if Loads(f, e, n) then MarkLoad(LoadedView(e, n)) else if Clears(f, m, e, t) then Clearing else Nothing
  }

  /** The marks of a run, in order. */
  ghost function Marks(f: Families, kinds: map<string, GroupType>, events: seq<Event>, t: GroupType, n: Name): seq<Mark>
    requires EventsOk(f, kinds, events)
  {
    if events == [] then []
    else
      var last := |events| - 1;
      Marks(f, kinds, events[..last], t, n) + [MarkOf(f, Run(f, kinds, events[..last]), events[last], t, n)]
  }

  /** The last mark that is not nothing is a load at version v. */
  ghost predicate LastLoaded(marks: seq<Mark>, v: nat) {
    exists i :: 0 <= i < |marks| && marks[i] == MarkLoad(Some(v)) && NothingFrom(marks, i + 1)
  }

  ghost predicate NothingFrom(marks: seq<Mark>, i: nat) {
    forall k :: i <= k < |marks| ==> marks[k] == Nothing
  }

  lemma OneMoreMark(marks: seq<Mark>, mark: Mark, v: nat)
    ensures LastLoaded(marks + [mark], v) <==> mark == MarkLoad(Some(v)) || (mark == Nothing && LastLoaded(marks, v))
  {
    var all := marks + [mark];
    if mark == MarkLoad(Some(v)) {
      assert all[|marks|] == mark && NothingFrom(all, |marks| + 1);
    }
    if mark == Nothing && LastLoaded(marks, v) {
      var i :| 0 <= i < |marks| && marks[i] == MarkLoad(Some(v)) && NothingFrom(marks, i + 1);
      assert all[i] == marks[i] && NothingFrom(all, i + 1);
    }
    if LastLoaded(all, v) {
      var i :| 0 <= i < |all| && all[i] == MarkLoad(Some(v)) && NothingFrom(all, i + 1);
      if i < |marks| {
        assert all[|marks|] == mark && marks[i] == all[i];
        assert forall k :: i + 1 <= k < |marks| ==> marks[k] == all[k];
        assert NothingFrom(marks, i + 1);
      }
    }
  }

  /** Over every run, with failures, warnings and mere loads: a table is active at a version if and only if
      the last event that loaded it or gave up a group of its class is a load of that version. */
  lemma {:induction false} ActiveTablesExactly(f: Families, kinds: map<string, GroupType>, events: seq<Event>, t: GroupType, n: Name, v: nat)
    requires Disjoint(f) && EventsOk(f, kinds, events) && Owns(f, t, n)
    ensures ActiveIn(f, Run(f, kinds, events), t, n) == Some(v) <==> LastLoaded(Marks(f, kinds, events, t, n), v)
    decreases |events|
  {
    if events != [] {
      var last := |events| - 1;
      var m := Run(f, kinds, events[..last]);
      assert EventOk(f, kinds, events[last]);
      ActiveTablesExactly(f, kinds, events[..last], t, n, v);
      TableAfterEvent(f, m, events[last], t, n);
      OneMoreMark(Marks(f, kinds, events[..last], t, n), MarkOf(f, m, events[last], t, n), v);
    }
  }

  // ---------------------------------------------------------------------------
  // The failures are real
  // ---------------------------------------------------------------------------

  /** An activating request without worker threads. */
  function Plain(name: string, members: seq<Member>): Request {
    Request(name, 1, members, true, false, false, AllTypes, true, false, 1)
  }

  /** A database that holds every member, and tables that initialise as given. */
  function Willing(members: seq<Member>, init: Init): World {
    World(true, Load(AllEntries(members), false, false), false, seq(|members|, _ => init), [])
  }

  function AllEntries(members: seq<Member>): map<Name, Option<Table>> {
    if members == [] then map[]
    else AllEntries(members[1..])[members[0].name := Some(Table(0, Some(members[0].version)))]
  }

  /** A group of one unreserved table is a configuration. */
  lemma SingleTable(f: Families, name: string, n: Name)
    requires Disjoint(f) && n !in Reserved(f)
    ensures Type(f, Plain(name, [Member(n, 1)])) == Of(ConfigurationType)
  {
    var names := NamesOf([Member(n, 1)]);
    assert names[0] == n;
    assert AsSet(names) == {n};
    assert {n} * Reserved(f) == {};
  }

  lemma SingleWorld(name: string, n: Name, init: Init)
    ensures WorldOk(Plain(name, [Member(n, 1)]), Willing([Member(n, 1)], init))
    ensures AllEntries([Member(n, 1)]) == map[n := Some(Table(0, Some(1)))]
  {
    var members := [Member(n, 1)];
    assert members[1..] == [] && members[0] == Member(n, 1);
    assert AllEntries(members) == map[n := Some(Table(0, Some(1)))];
    assert IsMember(members, n);
  }

  /** Without a configuration, one table that raises fails and stays active; one that does not is recorded. */
  lemma SingleRequest(f: Families, m: Manager, name: string, n: Name, init: Init)
    requires Disjoint(f) && n !in Reserved(f) && m.configuration == NONE && init != OtherError
    ensures WorldOk(Plain(name, [Member(n, 1)]), Willing([Member(n, 1)], init))
    ensures var o := After(f, m, Plain(name, [Member(n, 1)]), Willing([Member(n, 1)], init));
      && o.manager.tables == m.tables[n := Table(0, Some(1))]
      && if init == Fine then o.ending == Activated && o.manager.configuration == Group(name, Some(1))
         else o.ending == Failed(true) && o.manager.configuration == NONE
  {
    var members := [Member(n, 1)];
    var r, w := Plain(name, members), Willing(members, init);
    SingleTable(f, name, n);
    SingleWorld(name, n, init);
    var tables := Applied(m.tables, w.load.entries);
    assert tables == m.tables[n := Table(0, Some(1))];
    assert members[0].name in tables && w.inits[0] == init;
    assert HasInit(members, tables, w.inits, {RuntimeError}) <==> init == RuntimeError;
  }

  /** A configuration whose table raises, then another one: the table of the first is still active. */
  lemma StaleWitness(f: Families, a: Name, b: Name)
    requires Disjoint(f) && a !in Reserved(f) && b !in Reserved(f) && a != b
    ensures var r, w := Plain("One", [Member(a, 1)]), Willing([Member(a, 1)], RuntimeError);
      var r', w' := Plain("Two", [Member(b, 1)]), Willing([Member(b, 1)], Fine);
      && WorldOk(r, w) && WorldOk(r', w')
      && var failed := After(f, START, r, w); var done := After(f, failed.manager, r', w');
         && failed.ending == Failed(true) && done.ending == Activated
         && done.manager.configuration == Group("Two", Some(1))
         && ActiveIn(f, done.manager, ConfigurationType, a) == Some(1)
  {
    SingleRequest(f, START, "One", a, RuntimeError);
    var failed := After(f, START, Plain("One", [Member(a, 1)]), Willing([Member(a, 1)], RuntimeError));
    SingleRequest(f, failed.manager, "Two", b, Fine);
  }

  /** A willing database and tables that initialise well: a configuration without scratch members is recorded. */
  lemma WillingActivates(f: Families, m: Manager, name: string, members: seq<Member>)
    requires Type(f, Plain(name, members)) == Of(ConfigurationType) && DistinctNames(members) && !HasScratch(members)
    ensures var r, w := Plain(name, members), Willing(members, Fine);
      && WorldOk(r, w) && !w.load.warned
      && var o := After(f, m, r, w); o.ending == Activated && o.manager.configuration == Group(name, Some(1))
  {
    EntriesComplete(members);
    var r, w := Plain(name, members), Willing(members, Fine);
    assert WorldOk(r, w);
    GroupsAfter(f, m, r, w, ConfigurationType);
  }

  /** The group activates as a configuration and leaves member i, a table of another class, at its version. */
  ghost predicate TakesOver(f: Families, r: Request, w: World, i: nat) {
    && RequestOk(r) && WorldOk(r, w) && OverlookedRequest(f, r) && i < |r.members|
    && var o := After(f, START, r, w);
       && o.ending == Activated && o.manager.configuration == Group(r.name, Some(r.key)) && o.manager.backbone == NONE
       && ActiveIn(f, o.manager, BackboneType, r.members[i].name) == Some(r.members[i].version)
  }

  lemma OverlookedActivates(f: Families, name: string, members: seq<Member>, i: nat)
    requires Sorted(NamesOf(members)) && OverlookedRequest(f, Plain(name, members)) && !HasScratch(members)
    requires i < |members| && Belongs(f, BackboneType, members[i].name)
    ensures TakesOver(f, Plain(name, members), Willing(members, Fine), i)
  {
    DistinctMembers(members);
    WillingActivates(f, START, name, members);
    var r, w := Plain(name, members), Willing(members, Fine);
    GroupsAfter(f, START, r, w, BackboneType);
    MembersActive(f, START, r, w, i);
  }

  /** The programmed backbone with one foreign table before it activates as a configuration, and takes the
      backbone's tables with it. */
  lemma OverlookedWitness(members: seq<Member>)
    requires Mixed(members)
    ensures TakesOver(OTS, Plain("Mixed", members), Willing(members, Fine), 1)
  {
    MixedNames(members);
    MixedType(members);
    OverlookedActivates(OTS, "Mixed", members, 1);
  }

  ghost predicate Mixed(members: seq<Member>) {
    members == [Member("DetectorTable", 7), Member("GroupAliasesTable", 7), Member("VersionAliasesTable", 7)]
  }

  lemma MixedNames(members: seq<Member>)
    requires Mixed(members)
    ensures NamesOf(members) == ["DetectorTable", "GroupAliasesTable", "VersionAliasesTable"]
    ensures Sorted(NamesOf(members))
  {
    assert NamesOf(members) == ["DetectorTable", "GroupAliasesTable", "VersionAliasesTable"];
    assert "DetectorTable"[0] == 'D' && "GroupAliasesTable"[0] == 'G' && "VersionAliasesTable"[0] == 'V';
  }

  lemma MixedType(members: seq<Member>)
    requires Mixed(members) && NamesOf(members) == ["DetectorTable", "GroupAliasesTable", "VersionAliasesTable"]
    ensures OverlookedRequest(OTS, Plain("Mixed", members)) && Belongs(OTS, BackboneType, members[1].name)
  {
    var names := NamesOf(members);
    var s := AsSet(names);
    assert names[0] in s && names[1] in s && names[2] in s;
    assert s == {"DetectorTable"} + OTS.backbone;
    assert "DetectorTable"[0] == 'D' && "DetectorTable"[2] == 't' && |"DetectorTable"| > 2;
    BackboneOverlooked("DetectorTable");
    Foreign("DetectorTable");
  }

  lemma {:induction false} EntriesComplete(members: seq<Member>)
    requires DistinctNames(members)
    ensures Complete(members, AllEntries(members))
    ensures forall n :: n in AllEntries(members) ==> IsMember(members, n)
  {
    if members != [] {
      var rest := members[1..];
      assert forall i :: 0 <= i < |rest| ==> rest[i] == members[i + 1];
      EntriesComplete(rest);
      forall n | n in AllEntries(members) ensures IsMember(members, n) {
        if n in AllEntries(rest) {
          var i :| 0 <= i < |rest| && rest[i].name == n;
          assert members[i + 1].name == n;
        } else {
          assert members[0].name == n;
        }
      }
    }
  }

  // ---------------------------------------------------------------------------
  // Both ways of loading members are loads in this sense
  // ---------------------------------------------------------------------------

  /** A fetch that does not raise leaves the requested version active, if it leaves a view active at all. */
  ghost predicate Honest(fetch: Fetch) {
    forall m, prior :: HonestAnswer(m, fetch(m, prior))
  }

  ghost predicate HonestAnswer(m: Member, f: Fetched) {
    !f.raised && f.table.Some? && f.table.value.view.Some? ==> f.table.value.view.value == m.version
  }

  /** What became of the members, read off the map at the end. */
  ghost function Entries(members: seq<Member>, tables: map<Name, Table>): map<Name, Option<Table>> {
    map n | n in AsSet(NamesOf(members)) :: Lookup(tables, n)
  }

  lemma EntriesApplied(members: seq<Member>, before: map<Name, Table>, after: map<Name, Table>)
    requires forall n :: !IsMember(members, n) ==> Lookup(after, n) == Lookup(before, n)
    ensures Applied(before, Entries(members, after)) == after
    ensures forall n :: n in Entries(members, after) <==> IsMember(members, n)
  {
    forall n ensures n in Entries(members, after) <==> IsMember(members, n) { InSet(members, n); }
    forall n ensures Lookup(Applied(before, Entries(members, after)), n) == Lookup(after, n) {
      InSet(members, n);
    }
    SameLookups(Applied(before, Entries(members, after)), after);
  }

  lemma {:induction false} SequentialTouchesMembers(fetch: Fetch, members: seq<Member>, tables: map<Name, Table>, accumulate: bool, n: Name)
    requires !IsMember(members, n)
    ensures Lookup(Sequential(fetch, members, tables, accumulate).tables, n) == Lookup(tables, n)
    decreases |members|
  {
    if members != [] {
      var m := members[0];
      assert m.name != n;
      var f := fetch(m, Lookup(tables, m.name));
      assert forall i :: 0 <= i < |members[1..]| ==> members[1..][i] == members[i + 1];
      assert !IsMember(members[1..], n);
      SequentialTouchesMembers(fetch, members[1..], tables - {m.name}, accumulate, n);
      if f.table.Some? {
        SequentialTouchesMembers(fetch, members[1..], tables[m.name := f.table.value], accumulate, n);
      }
    }
  }

  lemma {:induction false} SequentialCompletes(fetch: Fetch, members: seq<Member>, tables: map<Name, Table>, accumulate: bool, i: nat)
    requires Honest(fetch) && DistinctNames(members) && i < |members|
    requires var l := Sequential(fetch, members, tables, accumulate); !l.threw && l.warnings == []
    ensures var t := Lookup(Sequential(fetch, members, tables, accumulate).tables, members[i].name);
      t.Some? && t.value.view == Some(members[i].version)
    decreases |members|
  {
    var m := members[0];
    var f := fetch(m, Lookup(tables, m.name));
    assert HonestAnswer(m, f);
    var rest := members[1..];
    assert forall k :: 0 <= k < |rest| ==> rest[k] == members[k + 1];
    var stored := tables[m.name := f.table.value];
    if i == 0 {
      assert !IsMember(rest, m.name);
      SequentialTouchesMembers(fetch, rest, stored, accumulate, m.name);
    } else {
      SequentialCompletes(fetch, rest, stored, accumulate, i - 1);
    }
  }

  lemma {:induction false} StrictNeverWarns(fetch: Fetch, members: seq<Member>, tables: map<Name, Table>)
    ensures Sequential(fetch, members, tables, false).warnings == []
    decreases |members|
  {
    if members != [] {
      var f := fetch(members[0], Lookup(tables, members[0].name));
      if f.table.Some? {
        StrictNeverWarns(fetch, members[1..], tables[members[0].name := f.table.value]);
      }
    }
  }

  /** The sequential path is a load as requests rely on it. */
  lemma SequentialIsLoad(fetch: Fetch, members: seq<Member>, tables: map<Name, Table>, accumulate: bool)
    requires Honest(fetch) && DistinctNames(members)
    ensures var l := Sequential(fetch, members, tables, accumulate);
      var load := Load(Entries(members, l.tables), l.threw, l.warnings != []);
      LoadOk(members, accumulate, load) && Applied(tables, load.entries) == l.tables
  {
    var l := Sequential(fetch, members, tables, accumulate);
    if !accumulate { StrictNeverWarns(fetch, members, tables); }
    forall n | !IsMember(members, n) ensures Lookup(l.tables, n) == Lookup(tables, n) {
      SequentialTouchesMembers(fetch, members, tables, accumulate, n);
    }
    EntriesApplied(members, tables, l.tables);
    if !l.threw && l.warnings == [] {
      forall i | 0 <= i < |members|
        ensures var t := Lookup(l.tables, members[i].name); t.Some? && t.value.view == Some(members[i].version)
      {
        SequentialCompletes(fetch, members, tables, accumulate, i);
      }
      CompleteEntries(members, l.tables);
    }
  }

  lemma CompleteEntries(members: seq<Member>, tables: map<Name, Table>)
    requires forall i :: 0 <= i < |members| ==>
      var t := Lookup(tables, members[i].name); t.Some? && t.value.view == Some(members[i].version)
    ensures Complete(members, Entries(members, tables))
  {
    forall i | 0 <= i < |members| ensures members[i].name in Entries(members, tables) {
      InSet(members, members[i].name);
    }
  }

  /** So is the slot pool, for every schedule: it throws, or warns, exactly if an error was reported. */
  lemma PoolIsLoad(j: SlotPool.Job, schedule: seq<SlotPool.Actor>, accumulate: bool)
    requires SlotPool.ValidJob(j) && Honest(j.fetch)
    requires SlotPool.Run(j, SlotPool.Start(j), schedule).pool.main.Finished?
    ensures var s := SlotPool.Run(j, SlotPool.Start(j), schedule);
      var errors := s.errors != multiset{};
      var load := Load(Entries(j.members, s.tables), errors && !accumulate, errors && accumulate);
      LoadOk(j.members, accumulate, load) && Applied(j.tables, load.entries) == s.tables
  {
    SlotPool.StartIsGood(j);
    SlotPool.RunKeepsInv(j, SlotPool.Start(j), schedule);
    var s := SlotPool.Run(j, SlotPool.Start(j), schedule);
    forall n | !IsMember(j.members, n) ensures Lookup(s.tables, n) == Lookup(j.tables, n) {
      assert SlotPool.Untouched(j, s.pool.workers, n);
    }
    EntriesApplied(j.members, j.tables, s.tables);
    if s.errors == multiset{} {
      SlotPool.PoolRefinesSequential(j, schedule);
      StrictNeverWarns(j.fetch, j.members, j.tables);
      forall i | 0 <= i < |j.members|
        ensures var t := Lookup(s.tables, j.members[i].name); t.Some? && t.value.view == Some(j.members[i].version)
      {
        SequentialCompletes(j.fetch, j.members, j.tables, false, i);
      }
      CompleteEntries(j.members, s.tables);
    }
  }
}
