/** Loading the member tables of a group, once one after the other and once through
    a pool of slots served by detached worker threads.

    The database behind a fetch is an arbitrary function, so every statement here
    holds for every database; every statement about a run of the pool holds for every
    schedule of the main thread and its workers. */
module MemberLoad {

  import opened Common

  type Name = string

  datatype Member = Member(name: Name, version: nat)

  /** A table object: its identity and the version of its active view, if it has one. */
  datatype Table = Table(id: int, view: Option<nat>)

  /** What one call of the interface leaves behind: whether it raised, and the table pointer. */
  datatype Fetched = Fetched(raised: bool, table: Option<Table>)

  type Fetch = (Member, Option<Table>) -> Fetched

  datatype Warning =
    | NullTable(member: Member)
    | FetchError(member: Member)
    | NoActiveView(member: Member)

  function Lookup(tables: map<Name, Table>, name: Name): Option<Table> {
    if name in tables then Some(tables[name]) else None
  }

  ghost predicate DistinctNames(members: seq<Member>) {
    forall i, j :: 0 <= i < j < |members| ==> members[i].name != members[j].name
  }

  /** The complaint a member gives rise to, if any. */
  function Complaint(m: Member, f: Fetched): Option<Warning> {
    if f.table.None? then Some(NullTable(m))
    else if f.table.value.view.None? then Some(NoActiveView(m))
    else if f.raised then Some(FetchError(m))
    else None
  }

  predicate LacksView(f: Fetched) {
    f.table.Some? && f.table.value.view.None?
  }

  /** When the sequential path gives up on a member. */
  predicate Stops(m: Member, f: Fetched, accumulate: bool) {
    if accumulate then LacksView(f) else Complaint(m, f).Some?
  }

  lemma SameLookups(a: map<Name, Table>, b: map<Name, Table>)
    requires forall name :: Lookup(a, name) == Lookup(b, name)
    ensures a == b
  {
    forall name ensures name in a <==> name in b {
      assert Lookup(a, name) == Lookup(b, name);
    }
    forall name | name in a ensures a[name] == b[name] {
      assert Lookup(a, name) == Lookup(b, name);
    }
  }

  // ---------------------------------------------------------------------------
  // The sequential path
  // ---------------------------------------------------------------------------

  datatype Loaded = Loaded(tables: map<Name, Table>, warnings: seq<Warning>, threw: bool)

  /** Members one after the other; `accumulate` says whether a warnings string was given. */
  function Sequential(fetch: Fetch, members: seq<Member>, tables: map<Name, Table>, accumulate: bool): Loaded {
    if members == [] then Loaded(tables, [], false) else
    var m := members[0];
    var f := fetch(m, Lookup(tables, m.name));
    if f.raised && !accumulate then Loaded(tables, [], true)
    else if f.table.None? then
      if !accumulate then Loaded(tables - {m.name}, [], true) else
      var rest := Sequential(fetch, members[1..], tables - {m.name}, accumulate);
      rest.(warnings := [NullTable(m)] + rest.warnings)
    else
      var stored := tables[m.name := f.table.value];
      if f.table.value.view.None? then Loaded(stored, [], true) else
      var rest := Sequential(fetch, members[1..], stored, accumulate);
      if f.raised then rest.(warnings := [FetchError(m)] + rest.warnings) else rest
  }

  /** The manager's name-to-table map, as the sequential loop changes it. */
  class TableStore {
    var nameToTable: map<Name, Table>

    constructor (tables: map<Name, Table>)
      ensures nameToTable == tables
    {
      nameToTable := tables;
    }

    /** One member: its table, or its removal, and the warning or the exception. */
    method LoadOne(fetch: Fetch, m: Member, accumulate: bool) returns (warnings: seq<Warning>, threw: bool)
      modifies this
      ensures var f := fetch(m, Lookup(old(nameToTable), m.name));
        && (threw <==> Stops(m, f, accumulate))
        && Lookup(nameToTable, m.name) == (if f.raised && !accumulate then Lookup(old(nameToTable), m.name) else f.table)
        && warnings == (if threw || Complaint(m, f).None? then [] else [Complaint(m, f).value])
      ensures forall n :: n != m.name ==> Lookup(nameToTable, n) == Lookup(old(nameToTable), n)
    {
      var f := fetch(m, Lookup(nameToTable, m.name));
      warnings := [];
      if f.raised && !accumulate { return [], true; }
      if f.table.None? {
        nameToTable := nameToTable - {m.name};
        if !accumulate { return [], true; }
        return [NullTable(m)], false;
      }
      nameToTable := nameToTable[m.name := f.table.value];
      if f.table.value.view.None? { return [], true; }
      return if f.raised then [FetchError(m)] else [], false;
    }

    /** The loop over the members. Throwing leaves what was done so far in place. */
    method LoadSequentially(fetch: Fetch, members: seq<Member>, accumulate: bool)
      returns (warnings: seq<Warning>, threw: bool)
      modifies this
      ensures Sequential(fetch, members, old(nameToTable), accumulate) == Loaded(nameToTable, warnings, threw)
    {
      warnings, threw := [], false;
      ghost var goal := Sequential(fetch, members, nameToTable, accumulate);
      var i := 0;
      assert members[0..] == members;
      while i < |members|
        invariant 0 <= i <= |members|
        invariant Prepend(warnings, Sequential(fetch, members[i..], nameToTable, accumulate)) == goal
      {
        ghost var before := nameToTable;
        OneThenRest(fetch, members, i, before, accumulate, warnings);
        var more;
        more, threw := LoadOne(fetch, members[i], accumulate);
        OneIs(fetch, members[i], before, nameToTable, accumulate, more, threw);
        warnings := warnings + more;
        if threw { return; }
        i := i + 1;
      }
    }
  }

  /** What a single member does. */
  ghost function One(fetch: Fetch, m: Member, tables: map<Name, Table>, accumulate: bool): Loaded {
    var f := fetch(m, Lookup(tables, m.name));
    if f.raised && !accumulate then Loaded(tables, [], true)
    else if f.table.None? then
      Loaded(tables - {m.name}, if accumulate then [NullTable(m)] else [], !accumulate)
    else
      var lost := f.table.value.view.None?;
      Loaded(tables[m.name := f.table.value], if f.raised && !lost then [FetchError(m)] else [], lost)
  }

  /** What is said of one member leaves a single outcome. */
  lemma OneIs(fetch: Fetch, m: Member, before: map<Name, Table>, after: map<Name, Table>, accumulate: bool,
              warnings: seq<Warning>, threw: bool)
    requires var f := fetch(m, Lookup(before, m.name));
      && (threw <==> Stops(m, f, accumulate))
      && Lookup(after, m.name) == (if f.raised && !accumulate then Lookup(before, m.name) else f.table)
      && warnings == (if threw || Complaint(m, f).None? then [] else [Complaint(m, f).value])
    requires forall n :: n != m.name ==> Lookup(after, n) == Lookup(before, n)
    ensures Loaded(after, warnings, threw) == One(fetch, m, before, accumulate)
  {
    var one := One(fetch, m, before, accumulate).tables;
    forall n ensures Lookup(after, n) == Lookup(one, n) {
      if n != m.name { assert Lookup(one, n) == Lookup(before, n); }
    }
    SameLookups(after, one);
  }

  lemma OneThenRest(fetch: Fetch, members: seq<Member>, i: nat, tables: map<Name, Table>, accumulate: bool, warnings: seq<Warning>)
    requires i < |members|
    ensures var one := One(fetch, members[i], tables, accumulate);
      Prepend(warnings, Sequential(fetch, members[i..], tables, accumulate)) ==
        if one.threw then Loaded(one.tables, warnings + one.warnings, true)
        else Prepend(warnings + one.warnings, Sequential(fetch, members[i + 1..], one.tables, accumulate))
  {
    var m := members[i];
    assert members[i..][0] == m && members[i..][1..] == members[i + 1..];
    var one := One(fetch, m, tables, accumulate);
    var rest := Sequential(fetch, members[i + 1..], one.tables, accumulate);
    assert warnings + (one.warnings + rest.warnings) == warnings + one.warnings + rest.warnings;
  }

  ghost function Prepend(warnings: seq<Warning>, l: Loaded): Loaded {
    l.(warnings := warnings + l.warnings)
  }
}
