/** Flattening a configuration database: every wanted group is loaded from the original
    database and saved, with its tables renumbered, into a new one.

    What a load returns, and which saves the database refuses, are inputs: every statement
    holds for all of them. */
module Flatten {
  import opened Common

  /** A table at a version, or a group at a key. */
  datatype Entry = Entry(name: string, number: nat)

  datatype Content =
    | Rows(text: string)
    | Metadata(aliases: map<string, string>, comment: string, author: string, time: string)

  const METADATA_TABLE := "TableGroupMetadata"

  /** The database as it was. Group members leave out the metadata table. */
  datatype Original = Original(tables: map<Entry, Content>, groups: map<Entry, seq<Entry>>)

  /** What one load of a group from the original leaves behind. `Failed` is a load that
      raised; a load that swallowed an error has `warned` set and may hold anything. */
  datatype Load =
    | Failed
    | Loaded(warned: bool, members: seq<Entry>, views: map<string, Content>,
             aliases: map<string, string>, comment: string, author: string, time: string)

  /** How the database answers a save of something that is not there yet. */
  datatype Fate = Accepted | Refused | WrittenButRaised

  datatype World = World(tableFate: Entry -> Fate, groupFate: Entry -> Fate)

  /** The renaming so far, the new database so far, and the new key of each migrated group. */
  datatype Book = Book(
    modified: map<Entry, nat>,
    tables: map<Entry, Content>,
    groups: map<Entry, map<string, nat>>,
    keys: map<Entry, nat>)

  // ---------------------------------------------------------------------------
  // One group
  // ---------------------------------------------------------------------------

  /** Saving never overwrites: a taken place is a collision. */
  function Save<T>(fate: Entry -> Fate, store: map<Entry, T>, e: Entry, value: T): (r: (map<Entry, T>, bool)) {
    if e in store then (store, false)
    else match fate(e)
      case Accepted => (store[e := value], true)
      case Refused => (store, false)
      case WrittenButRaised => (store[e := value], false)
  }

  datatype Saved = Saved(book: Book, renamed: map<string, nat>, ok: bool)

  /** The loop over the members of one group: re-use an earlier renaming, or save the active
      view under the flat version and remember it. The first refused save ends it. */
  function SaveMembers(w: World, b: Book, views: map<string, Content>, flat: nat,
                       members: seq<Entry>, renamed: map<string, nat>): Saved
    decreases |members|
  {
    if members == [] then Saved(b, renamed, true) else
    var m := members[0];
    if m in b.modified then
      SaveMembers(w, b, views, flat, members[1..], renamed[m.name := b.modified[m]])
    else if m.name !in views then Saved(b, renamed, false)
    else
      var (tables, ok) := Save(w.tableFate, b.tables, Entry(m.name, flat), views[m.name]);
      if !ok then Saved(b.(tables := tables), renamed, false)
      else SaveMembers(w, b.(tables := tables, modified := b.modified[m := flat]), views, flat,
                       members[1..], renamed[m.name := flat])
  }

  /** Saving one loaded group. `aliases` are the member aliases as the tool holds them. */
  function SaveGroup(w: World, b: Book, g: Entry, l: Load, aliases: map<string, string>, flat: nat): Book
    requires l.Loaded?
  {
    var s := SaveMembers(w, b, l.views, flat, l.members, map[]);
    if !s.ok then s.book else CloseGroup(w, s.book, s.renamed, g, Metadata(aliases, l.comment, l.author, l.time), flat)
  }

  /** After the members: the metadata table, then the group itself. */
  function CloseGroup(w: World, b: Book, renamed: map<string, nat>, g: Entry, meta: Content, flat: nat): Book {
    var (tables, metaOk) := Save(w.tableFate, b.tables, Entry(METADATA_TABLE, flat), meta);
    var b1 := b.(tables := tables);
    if !metaOk then b1 else
    var (groups, groupOk) := Save(w.groupFate, b1.groups, Entry(g.name, flat), renamed[METADATA_TABLE := flat]);
    if !groupOk then b1.(groups := groups)
    else b1.(groups := groups, keys := b1.keys[g := flat])
  }

  // ---------------------------------------------------------------------------
  // The whole run
  // ---------------------------------------------------------------------------

  datatype Run = Run(book: Book, flat: nat, aliases: map<string, string>)

  /** Aliases read for a group are added to those already held; an earlier value wins. */
  function Gather(held: map<string, string>, read: map<string, string>): map<string, string> {
    read + held
  }

  function Turn(w: World, r: Run, g: Entry, l: Load): Run {
    match l
    case Failed => r
    case Loaded(_, _, _, read, _, _, _) =>
      var aliases := Gather(r.aliases, read);
      Run(SaveGroup(w, r.book, g, l, aliases, r.flat), r.flat + 1, aliases)
  }

  /** The loop over the groups, each with what its load returned. */
  function Turns(w: World, r: Run, groups: seq<Entry>, loads: seq<Load>): Run
    requires |groups| == |loads|
  {
    if groups == [] then r
    else
      var n := |groups| - 1;
      Turn(w, Turns(w, r, groups[..n], loads[..n]), groups[n], loads[n])
  }

  ghost predicate DistinctEntries(s: seq<Entry>) {
    forall i, j :: 0 <= i < j < |s| ==> s[i] != s[j]
  }

  ghost predicate DistinctNames(s: seq<Entry>) {
    forall i, j :: 0 <= i < j < |s| ==> s[i].name != s[j].name
  }

  /** A member map has one version per name. */
  ghost predicate MemberMaps(loads: seq<Load>) {
    forall i :: 0 <= i < |loads| && loads[i].Loaded? ==> DistinctNames(loads[i].members)
  }

  // ---------------------------------------------------------------------------
  // What every step keeps
  // ---------------------------------------------------------------------------

  /** Nothing that was renamed, stored or migrated changes afterwards. */
  ghost predicate Grows(a: Book, b: Book) {
    Extends(a.modified, b.modified) && Extends(a.tables, b.tables) && Extends(a.groups, b.groups)
  }

  ghost predicate Injective(modified: map<Entry, nat>) {
    forall d, e :: d in modified && e in modified && d.name == e.name && modified[d] == modified[e] ==> d == e
  }

  /** Every renaming points at stored content and uses a version below the next one. */
  ghost predicate Sound(b: Book, flat: nat) {
    && (forall e :: e in b.modified ==> b.modified[e] < flat && Entry(e.name, b.modified[e]) in b.tables)
    && Injective(b.modified)
    && (forall g :: g in b.keys ==> b.keys[g] < flat)
    && (forall g, h :: g in b.keys && h in b.keys && b.keys[g] == b.keys[h] ==> g == h)
  }

  /** While the members of one group are saved, versions equal to `flat` are in use too,
      but not yet for the names still to come. */
  ghost predicate Midway(b: Book, flat: nat, members: seq<Entry>) {
    && (forall e :: e in b.modified ==> b.modified[e] <= flat && Entry(e.name, b.modified[e]) in b.tables)
    && Injective(b.modified)
    && (forall e, i :: e in b.modified && b.modified[e] == flat && 0 <= i < |members| ==> e.name != members[i].name)
  }

  lemma MidwayStep(b: Book, flat: nat, members: seq<Entry>, tables: map<Entry, Content>)
    requires members != [] && DistinctNames(members) && Midway(b, flat, members)
    requires members[0] !in b.modified && Extends(b.tables, tables) && Entry(members[0].name, flat) in tables
    ensures Midway(b.(tables := tables, modified := b.modified[members[0] := flat]), flat, members[1..])
  {
  }

  /** What is handed on after the first member, when the loop goes on. */
  function AfterFirst(w: World, b: Book, views: map<string, Content>, flat: nat, m: Entry): Saved {
    if m in b.modified then Saved(b, map[m.name := b.modified[m]], true)
    else if m.name !in views then Saved(b, map[], false)
    else
      var (tables, ok) := Save(w.tableFate, b.tables, Entry(m.name, flat), views[m.name]);
      if ok then Saved(b.(tables := tables, modified := b.modified[m := flat]), map[m.name := flat], true)
      else Saved(b.(tables := tables), map[], false)
  }

  lemma Unrolled(w: World, b: Book, views: map<string, Content>, flat: nat, members: seq<Entry>, renamed: map<string, nat>)
    requires members != []
    ensures var f := AfterFirst(w, b, views, flat, members[0]);
      SaveMembers(w, b, views, flat, members, renamed) ==
        if f.ok then SaveMembers(w, f.book, views, flat, members[1..], renamed + f.renamed)
        else Saved(f.book, renamed, false)
  {
    var m := members[0];
    if m in b.modified {
      assert renamed[m.name := b.modified[m]] == renamed + map[m.name := b.modified[m]];
    } else {
      assert renamed[m.name := flat] == renamed + map[m.name := flat];
    }
  }

  lemma FirstIntroduces(w: World, b: Book, views: map<string, Content>, flat: nat, m: Entry)
    ensures var f := AfterFirst(w, b, views, flat, m);
      forall e :: e in f.book.modified && e !in b.modified ==>
        && e == m && e.name in views && f.book.modified[e] == flat
        && Entry(e.name, flat) in f.book.tables && f.book.tables[Entry(e.name, flat)] == views[e.name]
  {
  }

  lemma FirstGrows(w: World, b: Book, views: map<string, Content>, flat: nat, members: seq<Entry>)
    requires members != [] && DistinctNames(members) && Midway(b, flat, members)
    ensures var f := AfterFirst(w, b, views, flat, members[0]);
      && Grows(b, f.book) && f.book.groups == b.groups && f.book.keys == b.keys
      && Midway(f.book, flat, members[1..])
  {
    FirstAddsOnly(w, b, views, flat, members[0]);
    var m := members[0];
    if m in b.modified || m.name !in views {
      MidwayKept(b, flat, members, b.tables);
    } else {
      var (tables, ok) := Save(w.tableFate, b.tables, Entry(m.name, flat), views[m.name]);
      if ok { MidwayStep(b, flat, members, tables); } else { MidwayKept(b, flat, members, tables); }
    }
  }

  lemma FirstAddsOnly(w: World, b: Book, views: map<string, Content>, flat: nat, m: Entry)
    ensures var f := AfterFirst(w, b, views, flat, m);
      Grows(b, f.book) && f.book.groups == b.groups && f.book.keys == b.keys
  {
  }

  lemma MidwayKept(b: Book, flat: nat, members: seq<Entry>, tables: map<Entry, Content>)
    requires members != [] && Midway(b, flat, members) && Extends(b.tables, tables)
    ensures Midway(b.(tables := tables), flat, members[1..])
  {
  }

  lemma FirstRenames(w: World, b: Book, views: map<string, Content>, flat: nat, m: Entry)
    requires AfterFirst(w, b, views, flat, m).ok
    ensures var f := AfterFirst(w, b, views, flat, m);
      m in f.book.modified && f.renamed == map[m.name := f.book.modified[m]]
  {
  }

  lemma {:induction false} MembersGrow(w: World, b: Book, views: map<string, Content>, flat: nat,
                                       members: seq<Entry>, renamed: map<string, nat>)
    requires DistinctNames(members) && Midway(b, flat, members)
    ensures var s := SaveMembers(w, b, views, flat, members, renamed);
      && Grows(b, s.book) && s.book.groups == b.groups && s.book.keys == b.keys
      && Midway(s.book, flat, [])
    decreases |members|
  {
    if members != [] {
      var f := AfterFirst(w, b, views, flat, members[0]);
      Unrolled(w, b, views, flat, members, renamed);
      FirstGrows(w, b, views, flat, members);
      if f.ok { MembersGrow(w, f.book, views, flat, members[1..], renamed + f.renamed); }
    }
  }

  /** Every new renaming maps a member to `flat` and points at the content of its view. */
  lemma {:induction false} MembersStored(w: World, b: Book, views: map<string, Content>, flat: nat,
                                         members: seq<Entry>, renamed: map<string, nat>, e: Entry)
    requires DistinctNames(members) && Midway(b, flat, members)
    requires e in SaveMembers(w, b, views, flat, members, renamed).book.modified && e !in b.modified
    ensures var s := SaveMembers(w, b, views, flat, members, renamed);
      && e in members && e.name in views && s.book.modified[e] == flat
      && Entry(e.name, flat) in s.book.tables && s.book.tables[Entry(e.name, flat)] == views[e.name]
    decreases |members|
  {
    if members != [] {
      var f := AfterFirst(w, b, views, flat, members[0]);
      Unrolled(w, b, views, flat, members, renamed);
      FirstGrows(w, b, views, flat, members);
      FirstIntroduces(w, b, views, flat, members[0]);
      if f.ok {
        MembersGrow(w, f.book, views, flat, members[1..], renamed + f.renamed);
        if e !in f.book.modified {
          MembersStored(w, f.book, views, flat, members[1..], renamed + f.renamed, e);
        }
      }
    }
  }

  /** If no save was refused, the renamed map is the image of the members. */
  lemma {:induction false} MembersRenamed(w: World, b: Book, views: map<string, Content>, flat: nat,
                                          members: seq<Entry>, renamed: map<string, nat>)
    requires DistinctNames(members) && Midway(b, flat, members)
    requires SaveMembers(w, b, views, flat, members, renamed).ok
    ensures var s := SaveMembers(w, b, views, flat, members, renamed);
      ImageOf(s.renamed, renamed, members, s.book.modified)
    decreases |members|
  {
    if members != [] {
      var f := AfterFirst(w, b, views, flat, members[0]);
      Unrolled(w, b, views, flat, members, renamed);
      assert Midway(f.book, flat, members[1..]) by { FirstGrows(w, b, views, flat, members); }
      MembersRenamed(w, f.book, views, flat, members[1..], renamed + f.renamed);
      var s := SaveMembers(w, b, views, flat, members, renamed);
      assert Extends(f.book.modified, s.book.modified) by {
        MembersGrow(w, f.book, views, flat, members[1..], renamed + f.renamed);
      }
      FirstRenames(w, b, views, flat, members[0]);
      ImageFromRest(s.renamed, renamed, members, f.renamed, f.book.modified, s.book.modified);
    }
  }

  lemma ImageFromRest(image: map<string, nat>, base: map<string, nat>, members: seq<Entry>,
                      first: map<string, nat>, before: map<Entry, nat>, modified: map<Entry, nat>)
    requires members != [] && DistinctNames(members) && Extends(before, modified)
    requires members[0] in before && first == map[members[0].name := before[members[0]]]
    requires ImageOf(image, base + first, members[1..], modified)
    ensures ImageOf(image, base, members, modified)
  {
    var rest := members[1..];
    var m := members[0];
    assert forall i :: 0 <= i < |rest| ==> rest[i] == members[i + 1];
    assert !Names(rest, m.name);
    forall i | 0 <= i < |members|
      ensures members[i] in modified && members[i].name in image && image[members[i].name] == modified[members[i]]
    {
      if i > 0 { assert members[i] == rest[i - 1]; }
    }
    forall n | !Names(members, n)
      ensures (n in image <==> n in base) && (n in base ==> image[n] == base[n])
    {
      assert !Names(rest, n) && n != m.name;
    }
  }

  /** `image` is `base` with every member's name mapped to its renamed version. */
  ghost predicate ImageOf(image: map<string, nat>, base: map<string, nat>, members: seq<Entry>, modified: map<Entry, nat>) {
    && (forall i :: 0 <= i < |members| ==>
          members[i] in modified && members[i].name in image && image[members[i].name] == modified[members[i]])
    && (forall n :: !Names(members, n) ==> (n in image <==> n in base) && (n in base ==> image[n] == base[n]))
  }

  ghost predicate Names(members: seq<Entry>, n: string) {
    exists i :: 0 <= i < |members| && members[i].name == n
  }

  // ---------------------------------------------------------------------------
  // Group by group
  // ---------------------------------------------------------------------------

  /** Group `g` was saved under key `k`: its member map is the image of `l`'s members under
      the renaming, plus the metadata table at `k`, and nothing else. */
  ghost predicate Migrated(b: Book, g: Entry, k: nat, l: Load, aliases: map<string, string>)
    requires l.Loaded?
  {
    && Entry(g.name, k) in b.groups
    && (forall i :: 0 <= i < |l.members| ==> l.members[i] in b.modified)
    && (forall i :: 0 <= i < |l.members| && l.members[i].name != METADATA_TABLE ==>
          && l.members[i].name in b.groups[Entry(g.name, k)]
          && b.groups[Entry(g.name, k)][l.members[i].name] == b.modified[l.members[i]])
    && METADATA_TABLE in b.groups[Entry(g.name, k)] && b.groups[Entry(g.name, k)][METADATA_TABLE] == k
    && (forall n :: n in b.groups[Entry(g.name, k)] ==> n == METADATA_TABLE || Names(l.members, n))
    && Entry(METADATA_TABLE, k) in b.tables
    && b.tables[Entry(METADATA_TABLE, k)] == Metadata(aliases, l.comment, l.author, l.time)
  }

  /** The renaming of `e` was made for `l` and points at the view `l` held of its table. */
  ghost predicate Introduced(b: Book, e: Entry, l: Load) {
    && l.Loaded? && e in l.members && e.name in l.views && e in b.modified
    && Entry(e.name, b.modified[e]) in b.tables
    && b.tables[Entry(e.name, b.modified[e])] == l.views[e.name]
  }

  lemma GrownIntroduced(a: Book, b: Book, e: Entry, l: Load)
    requires Grows(a, b) && Introduced(a, e, l)
    ensures Introduced(b, e, l)
  {
  }

  lemma GrownMigrated(a: Book, b: Book, g: Entry, k: nat, l: Load, aliases: map<string, string>)
    requires l.Loaded? && Grows(a, b) && Migrated(a, g, k, l, aliases)
    ensures Migrated(b, g, k, l, aliases)
  {
    assert b.groups[Entry(g.name, k)] == a.groups[Entry(g.name, k)];
  }

  /** After its members, a group adds one table, one group and one key at most. */
  lemma GroupAdds(w: World, b: Book, g: Entry, l: Load, aliases: map<string, string>, flat: nat)
    requires l.Loaded?
    ensures var s := SaveMembers(w, b, l.views, flat, l.members, map[]).book;
      var b' := SaveGroup(w, b, g, l, aliases, flat);
      && b'.modified == s.modified
      && Extends(s.tables, b'.tables) && Extends(s.groups, b'.groups)
      && (b'.keys == s.keys || b'.keys == s.keys[g := flat])
  {
    var s := SaveMembers(w, b, l.views, flat, l.members, map[]);
    if s.ok { CloseAdds(w, s.book, s.renamed, g, Metadata(aliases, l.comment, l.author, l.time), flat); }
  }

  lemma CloseAdds(w: World, b: Book, renamed: map<string, nat>, g: Entry, meta: Content, flat: nat)
    ensures var b' := CloseGroup(w, b, renamed, g, meta, flat);
      && b'.modified == b.modified
      && Extends(b.tables, b'.tables) && Extends(b.groups, b'.groups)
      && (b'.keys == b.keys || b'.keys == b.keys[g := flat])
  {
  }

  lemma CloseRecords(w: World, b: Book, renamed: map<string, nat>, g: Entry, meta: Content, flat: nat)
    requires g in CloseGroup(w, b, renamed, g, meta, flat).keys && g !in b.keys
    ensures var b' := CloseGroup(w, b, renamed, g, meta, flat);
      && Entry(g.name, flat) in b'.groups && b'.groups[Entry(g.name, flat)] == renamed[METADATA_TABLE := flat]
      && Entry(METADATA_TABLE, flat) in b'.tables && b'.tables[Entry(METADATA_TABLE, flat)] == meta
  {
  }

  lemma SoundAfter(s: Book, b': Book, g: Entry, flat: nat)
    requires Midway(s, flat, []) && b'.modified == s.modified && Extends(s.tables, b'.tables)
    requires forall h :: h in s.keys ==> s.keys[h] < flat
    requires forall h, k :: h in s.keys && k in s.keys && s.keys[h] == s.keys[k] ==> h == k
    requires b'.keys == s.keys || b'.keys == s.keys[g := flat]
    ensures Sound(b', flat + 1)
  {
  }

  lemma GroupGrows(w: World, b: Book, g: Entry, l: Load, aliases: map<string, string>, flat: nat)
    requires l.Loaded? && DistinctNames(l.members) && Sound(b, flat) && g !in b.keys
    ensures var b' := SaveGroup(w, b, g, l, aliases, flat);
      && Grows(b, b') && Sound(b', flat + 1)
      && (b'.keys == b.keys || b'.keys == b.keys[g := flat])
  {
    MembersGrow(w, b, l.views, flat, l.members, map[]);
    GroupAdds(w, b, g, l, aliases, flat);
    SoundAfter(SaveMembers(w, b, l.views, flat, l.members, map[]).book, SaveGroup(w, b, g, l, aliases, flat), g, flat);
  }

  lemma GroupIntroduces(w: World, b: Book, g: Entry, l: Load, aliases: map<string, string>, flat: nat, e: Entry)
    requires l.Loaded? && DistinctNames(l.members) && Sound(b, flat)
    requires e in SaveGroup(w, b, g, l, aliases, flat).modified && e !in b.modified
    ensures Introduced(SaveGroup(w, b, g, l, aliases, flat), e, l)
  {
    GroupAdds(w, b, g, l, aliases, flat);
    MembersStored(w, b, l.views, flat, l.members, map[], e);
  }

  lemma GroupMigrates(w: World, b: Book, g: Entry, l: Load, aliases: map<string, string>, flat: nat)
    requires l.Loaded? && DistinctNames(l.members) && Sound(b, flat) && g !in b.keys
    requires g in SaveGroup(w, b, g, l, aliases, flat).keys
    ensures Migrated(SaveGroup(w, b, g, l, aliases, flat), g, flat, l, aliases)
  {
    assert Midway(b, flat, l.members);
    var s := SaveMembers(w, b, l.views, flat, l.members, map[]);
    assert s.book.keys == b.keys by { MembersGrow(w, b, l.views, flat, l.members, map[]); }
    MembersRenamed(w, b, l.views, flat, l.members, map[]);
    var meta := Metadata(aliases, l.comment, l.author, l.time);
    CloseAdds(w, s.book, s.renamed, g, meta, flat);
    CloseRecords(w, s.book, s.renamed, g, meta, flat);
  }

  // ---------------------------------------------------------------------------
  // Whole runs
  // ---------------------------------------------------------------------------

  /** The run starts with nothing renamed, over whatever the target database already holds. */
  function Start(tables: map<Entry, Content>, groups: map<Entry, map<string, nat>>, flat: nat): Run {
    Run(Book(map[], tables, groups, map[]), flat, map[])
  }

  /** The aliases held after a number of loads. */
  function Held(loads: seq<Load>): map<string, string> {
    if loads == [] then map[]
    else
      var l := loads[|loads| - 1];
      var before := Held(loads[..|loads| - 1]);
      if l.Loaded? then Gather(before, l.aliases) else before
  }

  /** Every renaming has a load that introduced it; every migrated group is an image. */
  ghost predicate Accounted(b: Book, groups: seq<Entry>, loads: seq<Load>)
    requires |groups| == |loads|
  {
    && (forall e :: e in b.modified ==> IntroducedBySome(b, e, loads))
    && (forall g :: g in b.keys ==> MigratedBySome(b, groups, loads, g))
  }

  ghost predicate IntroducedBySome(b: Book, e: Entry, loads: seq<Load>) {
    exists i :: 0 <= i < |loads| && Introduced(b, e, loads[i])
  }

  ghost predicate MigratedBySome(b: Book, groups: seq<Entry>, loads: seq<Load>, g: Entry)
    requires |groups| == |loads|
  {
    exists i :: 0 <= i < |loads| && MigratedAt(b, groups, loads, i, g)
  }

  ghost predicate MigratedAt(b: Book, groups: seq<Entry>, loads: seq<Load>, i: nat, g: Entry)
    requires |groups| == |loads| && i < |loads|
  {
    groups[i] == g && loads[i].Loaded? && g in b.keys && Migrated(b, g, b.keys[g], loads[i], Held(loads[..i + 1]))
  }

  lemma TurnIntroduces(b: Book, b': Book, loads: seq<Load>, e: Entry)
    requires |loads| > 0 && Grows(b, b') && e in b'.modified
    requires e in b.modified ==> exists i :: 0 <= i < |loads| - 1 && Introduced(b, e, loads[i])
    requires e !in b.modified ==> Introduced(b', e, loads[|loads| - 1])
    ensures IntroducedBySome(b', e, loads)
  {
    if e in b.modified {
      var i :| 0 <= i < |loads| - 1 && Introduced(b, e, loads[i]);
      GrownIntroduced(b, b', e, loads[i]);
    }
  }

  lemma StillMigrated(b: Book, b': Book, groups: seq<Entry>, loads: seq<Load>, i: nat, g: Entry)
    requires |groups| == |loads| && i < |loads| - 1 && Grows(b, b')
    requires MigratedAt(b, groups[..|groups| - 1], loads[..|loads| - 1], i, g)
    requires g in b'.keys && b'.keys[g] == b.keys[g]
    ensures MigratedAt(b', groups, loads, i, g)
  {
    assert loads[..|loads| - 1][..i + 1] == loads[..i + 1];
    GrownMigrated(b, b', g, b.keys[g], loads[i], Held(loads[..i + 1]));
  }

  lemma StillMigratedBySome(b: Book, b': Book, groups: seq<Entry>, loads: seq<Load>, g: Entry)
    requires |groups| == |loads| > 0 && Grows(b, b')
    requires MigratedBySome(b, groups[..|groups| - 1], loads[..|loads| - 1], g)
    requires g in b.keys && g in b'.keys && b'.keys[g] == b.keys[g]
    ensures MigratedBySome(b', groups, loads, g)
  {
    var n := |groups| - 1;
    var i :| 0 <= i < n && MigratedAt(b, groups[..n], loads[..n], i, g);
    StillMigrated(b, b', groups, loads, i, g);
  }

  /** Each renaming after the turn was introduced by a load so far. */
  lemma TurnRenamings(w: World, b: Book, groups: seq<Entry>, loads: seq<Load>, aliases: map<string, string>, flat: nat, e: Entry)
    requires |groups| == |loads| > 0 && loads[|loads| - 1].Loaded? && DistinctNames(loads[|loads| - 1].members)
    requires Sound(b, flat) && Accounted(b, groups[..|groups| - 1], loads[..|loads| - 1])
    requires var b' := SaveGroup(w, b, groups[|groups| - 1], loads[|loads| - 1], aliases, flat); Grows(b, b') && e in b'.modified
    ensures IntroducedBySome(SaveGroup(w, b, groups[|groups| - 1], loads[|loads| - 1], aliases, flat), e, loads)
  {
    var n := |groups| - 1;
    if e in b.modified {
      var i :| 0 <= i < n && Introduced(b, e, loads[..n][i]);
      assert loads[..n][i] == loads[i];
    } else {
      GroupIntroduces(w, b, groups[n], loads[n], aliases, flat, e);
    }
    TurnIntroduces(b, SaveGroup(w, b, groups[n], loads[n], aliases, flat), loads, e);
  }

  lemma TurnAccounted(w: World, r: Run, groups: seq<Entry>, loads: seq<Load>)
    requires |groups| == |loads| > 0 && loads[|loads| - 1].Loaded? && MemberMaps(loads)
    requires Sound(r.book, r.flat) && r.aliases == Held(loads[..|loads| - 1])
    requires Accounted(r.book, groups[..|groups| - 1], loads[..|loads| - 1])
    requires groups[|groups| - 1] !in r.book.keys
    ensures Accounted(Turn(w, r, groups[|groups| - 1], loads[|groups| - 1]).book, groups, loads)
  {
    var n := |groups| - 1;
    var g, l := groups[n], loads[n];
    var aliases := Gather(r.aliases, l.aliases);
    var b := r.book;
    var b' := SaveGroup(w, b, g, l, aliases, r.flat);
    GroupGrows(w, b, g, l, aliases, r.flat);
    forall e | e in b'.modified ensures IntroducedBySome(b', e, loads) {
      TurnRenamings(w, b, groups, loads, aliases, r.flat, e);
    }
    forall h | h in b'.keys ensures MigratedBySome(b', groups, loads, h) {
      assert loads[..n + 1] == loads && loads[..n + 1][..n] == loads[..n];
      TurnMigrations(w, b, groups, loads, aliases, r.flat, h);
    }
  }

  /** Each migrated group after the turn is the image of a load so far. */
  lemma TurnMigrations(w: World, b: Book, groups: seq<Entry>, loads: seq<Load>, aliases: map<string, string>, flat: nat, h: Entry)
    requires |groups| == |loads| > 0 && loads[|loads| - 1].Loaded? && DistinctNames(loads[|loads| - 1].members)
    requires Sound(b, flat) && Accounted(b, groups[..|groups| - 1], loads[..|loads| - 1])
    requires groups[|groups| - 1] !in b.keys && aliases == Held(loads)
    requires h in SaveGroup(w, b, groups[|groups| - 1], loads[|loads| - 1], aliases, flat).keys
    ensures MigratedBySome(SaveGroup(w, b, groups[|groups| - 1], loads[|loads| - 1], aliases, flat), groups, loads, h)
  {
    var n := |groups| - 1;
    var b' := SaveGroup(w, b, groups[n], loads[n], aliases, flat);
    GroupGrows(w, b, groups[n], loads[n], aliases, flat);
    if h in b.keys {
      StillMigratedBySome(b, b', groups, loads, h);
    } else {
      OwnMigration(w, b, groups, loads, aliases, flat);
      assert MigratedAt(b', groups, loads, n, h);
    }
  }

  /** The group of the turn itself. */
  lemma OwnMigration(w: World, b: Book, groups: seq<Entry>, loads: seq<Load>, aliases: map<string, string>, flat: nat)
    requires |groups| == |loads| > 0 && loads[|loads| - 1].Loaded? && DistinctNames(loads[|loads| - 1].members)
    requires Sound(b, flat) && groups[|groups| - 1] !in b.keys && aliases == Held(loads)
    requires groups[|groups| - 1] in SaveGroup(w, b, groups[|groups| - 1], loads[|loads| - 1], aliases, flat).keys
    ensures var n := |groups| - 1; MigratedAt(SaveGroup(w, b, groups[n], loads[n], aliases, flat), groups, loads, n, groups[n])
  {
    var n := |groups| - 1;
    GroupGrows(w, b, groups[n], loads[n], aliases, flat);
    GroupMigrates(w, b, groups[n], loads[n], aliases, flat);
    assert loads[..n + 1] == loads;
  }

  /** A load that raised changes nothing. */
  lemma FailedAccounted(b: Book, groups: seq<Entry>, loads: seq<Load>)
    requires |groups| == |loads| > 0
    requires Accounted(b, groups[..|groups| - 1], loads[..|loads| - 1])
    ensures Accounted(b, groups, loads)
  {
    var n := |groups| - 1;
    forall e | e in b.modified ensures IntroducedBySome(b, e, loads) {
      var i :| 0 <= i < n && Introduced(b, e, loads[..n][i]);
      assert loads[..n][i] == loads[i];
    }
    forall h | h in b.keys ensures MigratedBySome(b, groups, loads, h) {
      assert MigratedBySome(b, groups[..n], loads[..n], h);
      var i :| 0 <= i < n && MigratedAt(b, groups[..n], loads[..n], i, h);
      StillMigrated(b, b, groups, loads, i, h);
    }
  }

  /** In every run, whatever the loads return and whichever saves are refused: the renaming is
      injective per table name, new keys are distinct, every renaming points at the content
      its introducing load held, and every migrated group is the image of its members. */
  lemma {:induction false} EveryRunAccounted(w: World, tables: map<Entry, Content>, stored: map<Entry, map<string, nat>>,
                                             flat: nat, groups: seq<Entry>, loads: seq<Load>)
    requires |groups| == |loads| && DistinctEntries(groups) && MemberMaps(loads)
    ensures var r := Turns(w, Start(tables, stored, flat), groups, loads);
      && Sound(r.book, r.flat) && r.aliases == Held(loads)
      && Accounted(r.book, groups, loads)
      && (forall g :: g in r.book.keys ==> g in groups)
      && Extends(tables, r.book.tables) && Extends(stored, r.book.groups)
  {
    if groups != [] {
      var n := |groups| - 1;
      EveryRunAccounted(w, tables, stored, flat, groups[..n], loads[..n]);
      var r := Turns(w, Start(tables, stored, flat), groups[..n], loads[..n]);
      if loads[n].Failed? {
        FailedAccounted(r.book, groups, loads);
      } else {
        TurnAccounted(w, r, groups, loads);
        GroupGrows(w, r.book, groups[n], loads[n], Gather(r.aliases, loads[n].aliases), r.flat);
      }
    }
  }

  /** Entries never change: a longer run keeps all that a shorter one did. */
  lemma {:induction false} RunsOnlyGrow(w: World, r: Run, groups: seq<Entry>, loads: seq<Load>)
    requires |groups| == |loads| && DistinctEntries(groups) && MemberMaps(loads) && Sound(r.book, r.flat)
    requires forall i :: 0 <= i < |groups| ==> groups[i] !in r.book.keys
    ensures var t := Turns(w, r, groups, loads);
      && Grows(r.book, t.book) && Extends(r.book.keys, t.book.keys) && Sound(t.book, t.flat)
      && forall g :: g in t.book.keys ==> g in r.book.keys || g in groups
  {
    if groups != [] {
      var n := |groups| - 1;
      RunsOnlyGrow(w, r, groups[..n], loads[..n]);
      var t := Turns(w, r, groups[..n], loads[..n]);
      if loads[n].Loaded? {
        GroupGrows(w, t.book, groups[n], loads[n], Gather(t.aliases, loads[n].aliases), t.flat);
      }
    }
  }

  // ---------------------------------------------------------------------------
  // Meaning
  // ---------------------------------------------------------------------------

  /** The load lists the members of the group as the original database does. */
  ghost predicate ListsRight(o: Original, g: Entry, l: Load) {
    && l.Loaded? && g in o.groups && l.members == o.groups[g]
    && forall i :: 0 <= i < |l.members| ==> l.members[i].name != METADATA_TABLE
  }

  /** The load holds the view of a table that the original database has. */
  ghost predicate RightView(o: Original, l: Load, e: Entry) {
    l.Loaded? && e in o.tables && e.name in l.views && l.views[e.name] == o.tables[e]
  }

  ghost predicate SameContent(o: Original, b: Book, e: Entry) {
    && e in o.tables && e in b.modified && Entry(e.name, b.modified[e]) in b.tables
    && b.tables[Entry(e.name, b.modified[e])] == o.tables[e]
  }

  /** A group migrated to a new key names the same tables, plus its metadata table, and every
      one of them has the content it had in the original database. */
  ghost predicate SameMeaning(o: Original, b: Book, g: Entry) {
    && g in o.groups && g in b.keys && Entry(g.name, b.keys[g]) in b.groups
    && (forall i :: 0 <= i < |o.groups[g]| ==> SameMember(o, b, g, o.groups[g][i]))
    && (forall n :: n in b.groups[Entry(g.name, b.keys[g])] ==> n == METADATA_TABLE || Names(o.groups[g], n))
  }

  ghost predicate SameMember(o: Original, b: Book, g: Entry, m: Entry)
    requires g in b.keys && Entry(g.name, b.keys[g]) in b.groups
  {
    var saved := b.groups[Entry(g.name, b.keys[g])];
    && m in o.tables && m.name in saved && Entry(m.name, saved[m.name]) in b.tables
    && b.tables[Entry(m.name, saved[m.name])] == o.tables[m]
  }

  /** A load that neither raised nor warned. */
  predicate Clean(l: Load) { l.Loaded? && !l.warned }

  /** A renaming is faithful if and only if the load that introduced it held the right view. */
  lemma IntroducedRight(o: Original, b: Book, e: Entry, l: Load)
    requires Introduced(b, e, l)
    ensures SameContent(o, b, e) <==> RightView(o, l, e)
  {
  }

  /** A migrated group means the same exactly if each of its members has kept its content. */
  lemma MeaningOfMembers(o: Original, b: Book, groups: seq<Entry>, loads: seq<Load>, i: nat, g: Entry)
    requires |groups| == |loads| && i < |loads| && MigratedAt(b, groups, loads, i, g) && ListsRight(o, g, loads[i])
    ensures SameMeaning(o, b, g) <==> forall e :: e in loads[i].members ==> SameContent(o, b, e)
  {
    var members := loads[i].members;
    if SameMeaning(o, b, g) {
      forall e | e in members ensures SameContent(o, b, e) {
        var m :| 0 <= m < |members| && members[m] == e;
        assert SameMember(o, b, g, o.groups[g][m]);
      }
    } else if forall e :: e in members ==> SameContent(o, b, e) {
      forall k | 0 <= k < |members| ensures SameMember(o, b, g, members[k]) {
        assert members[k] in members;
      }
    }
  }

  // ---------------------------------------------------------------------------
  // Meaning, over whole runs
  // ---------------------------------------------------------------------------

  lemma {:induction false} TurnsSplit(w: World, r: Run, groups: seq<Entry>, loads: seq<Load>, i: nat)
    requires |groups| == |loads| && i <= |groups|
    ensures Turns(w, r, groups, loads) == Turns(w, Turns(w, r, groups[..i], loads[..i]), groups[i..], loads[i..])
    decreases |groups|
  {
    var n := |groups| - 1;
    if i == |groups| {
      assert groups[..i] == groups && loads[..i] == loads;
    } else {
      TurnsSplit(w, r, groups[..n], loads[..n], i);
      assert groups[..n][..i] == groups[..i] && loads[..n][..i] == loads[..i];
      assert groups[i..][..n - i] == groups[..n][i..] && loads[i..][..n - i] == loads[..n][i..];
    }
  }

  /** The book of the run before turn i. */
  function Before(w: World, s: Run, groups: seq<Entry>, loads: seq<Load>, i: nat): Book
    requires |groups| == |loads| && i <= |groups|
  {
    Turns(w, s, groups[..i], loads[..i]).book
  }

  ghost predicate RunOk(groups: seq<Entry>, loads: seq<Load>) {
    |groups| == |loads| && DistinctEntries(groups) && MemberMaps(loads)
  }

  /** What was done before turn i stays; what has a new key at the end and is not of a later turn has it already. */
  lemma KeptToTheEnd(w: World, tables: map<Entry, Content>, stored: map<Entry, map<string, nat>>, flat: nat,
                     groups: seq<Entry>, loads: seq<Load>, i: nat)
    requires RunOk(groups, loads) && i <= |groups|
    ensures var s := Start(tables, stored, flat);
      var before, b := Before(w, s, groups, loads, i), Turns(w, s, groups, loads).book;
      && Sound(before, Turns(w, s, groups[..i], loads[..i]).flat)
      && Grows(before, b) && Extends(before.keys, b.keys)
      && (forall g :: g in before.keys ==> g in groups[..i])
      && (forall g :: g in b.keys ==> g in before.keys || g in groups[i..])
  {
    var s := Start(tables, stored, flat);
    EveryRunAccounted(w, tables, stored, flat, groups[..i], loads[..i]);
    TurnsSplit(w, s, groups, loads, i);
    var r := Turns(w, s, groups[..i], loads[..i]);
    forall k | 0 <= k < |groups[i..]| ensures groups[i..][k] !in r.book.keys {
      assert groups[i..][k] == groups[i + k] && groups[i + k] !in groups[..i];
    }
    RunsOnlyGrow(w, r, groups[i..], loads[i..]);
  }

  /** Turn i, seen from its own book. */
  lemma OneTurn(w: World, s: Run, groups: seq<Entry>, loads: seq<Load>, i: nat)
    requires |groups| == |loads| && i < |groups|
    ensures Turns(w, s, groups[..i + 1], loads[..i + 1]) == Turn(w, Turns(w, s, groups[..i], loads[..i]), groups[i], loads[i])
  {
    assert groups[..i + 1][..i] == groups[..i] && loads[..i + 1][..i] == loads[..i];
  }

  /** The renaming of e was made in turn i. */
  ghost predicate MadeIn(w: World, s: Run, groups: seq<Entry>, loads: seq<Load>, i: nat, e: Entry)
    requires |groups| == |loads| && i < |groups|
  {
    e !in Before(w, s, groups, loads, i).modified && e in Before(w, s, groups, loads, i + 1).modified
  }

  lemma MadeInIntroduces(w: World, tables: map<Entry, Content>, stored: map<Entry, map<string, nat>>, flat: nat,
                         groups: seq<Entry>, loads: seq<Load>, i: nat, e: Entry)
    requires RunOk(groups, loads) && i < |groups| && MadeIn(w, Start(tables, stored, flat), groups, loads, i, e)
    ensures Introduced(Turns(w, Start(tables, stored, flat), groups, loads).book, e, loads[i])
  {
    var s := Start(tables, stored, flat);
    var r := Turns(w, s, groups[..i], loads[..i]);
    OneTurn(w, s, groups, loads, i);
    KeptToTheEnd(w, tables, stored, flat, groups, loads, i);
    KeptToTheEnd(w, tables, stored, flat, groups, loads, i + 1);
    GroupIntroduces(w, r.book, groups[i], loads[i], Gather(r.aliases, loads[i].aliases), r.flat, e);
    GrownIntroduced(Before(w, s, groups, loads, i + 1), Turns(w, s, groups, loads).book, e, loads[i]);
  }

  /** Every renaming of a run was made in exactly one turn. */
  lemma {:induction false} MadeInSome(w: World, s: Run, groups: seq<Entry>, loads: seq<Load>, e: Entry) returns (i: nat)
    requires |groups| == |loads| && e !in s.book.modified && e in Turns(w, s, groups, loads).book.modified
    ensures i < |groups| && MadeIn(w, s, groups, loads, i, e)
    decreases |groups|
  {
    var n := |groups| - 1;
    assert groups[..n + 1] == groups && loads[..n + 1] == loads;
    if e in Turns(w, s, groups[..n], loads[..n]).book.modified {
      i := MadeInSome(w, s, groups[..n], loads[..n], e);
      assert groups[..n][..i] == groups[..i] && loads[..n][..i] == loads[..i];
      assert groups[..n][..i + 1] == groups[..i + 1] && loads[..n][..i + 1] == loads[..i + 1];
    } else {
      i := n;
    }
  }

  /** In every run, a renaming keeps its content if and only if the load of the turn that made it held
      the right view of the table. */
  lemma RenamingExactly(o: Original, w: World, tables: map<Entry, Content>, stored: map<Entry, map<string, nat>>,
                        flat: nat, groups: seq<Entry>, loads: seq<Load>, i: nat, e: Entry)
    requires RunOk(groups, loads)
    requires i < |groups| && MadeIn(w, Start(tables, stored, flat), groups, loads, i, e)
    ensures loads[i].Loaded? && e in loads[i].members
    ensures SameContent(o, Turns(w, Start(tables, stored, flat), groups, loads).book, e) <==> RightView(o, loads[i], e)
  {
    MadeInIntroduces(w, tables, stored, flat, groups, loads, i, e);
    IntroducedRight(o, Turns(w, Start(tables, stored, flat), groups, loads).book, e, loads[i]);
  }

  /** What is about to be saved for a member is right: the renaming remembered for it or, if there is none,
      the view the load holds. */
  ghost predicate RightMember(o: Original, before: Book, l: Load, e: Entry) {
    if e in before.modified then SameContent(o, before, e) else RightView(o, l, e)
  }

  ghost predicate RightMembers(o: Original, before: Book, l: Load)
    requires l.Loaded?
  {
    forall e :: e in l.members ==> RightMember(o, before, l, e)
  }

  /** In every run, a migrated group keeps its meaning if and only if, when its turn came, every member was
      right: faithful in the renaming already remembered for it or, without one, in the view of the load. */
  lemma GroupExactly(o: Original, w: World, tables: map<Entry, Content>, stored: map<Entry, map<string, nat>>,
                     flat: nat, groups: seq<Entry>, loads: seq<Load>, i: nat)
    requires RunOk(groups, loads) && i < |loads| && ListsRight(o, groups[i], loads[i])
    requires groups[i] in Turns(w, Start(tables, stored, flat), groups, loads).book.keys
    ensures var s := Start(tables, stored, flat);
      SameMeaning(o, Turns(w, s, groups, loads).book, groups[i]) <==>
      RightMembers(o, Before(w, s, groups, loads, i), loads[i])
  {
    var s := Start(tables, stored, flat);
    var b := Turns(w, s, groups, loads).book;
    EveryRunAccounted(w, tables, stored, flat, groups, loads);
    assert MigratedBySome(b, groups, loads, groups[i]);
    var k :| 0 <= k < |loads| && MigratedAt(b, groups, loads, k, groups[i]);
    assert k == i;
    MeaningOfMembers(o, b, groups, loads, i, groups[i]);
    forall e | e in loads[i].members
      ensures SameContent(o, b, e) <==> RightMember(o, Before(w, s, groups, loads, i), loads[i], e)
    {
      MemberContent(o, w, tables, stored, flat, groups, loads, i, e);
    }
  }

  /** A member's content at the end is right exactly if it was when its turn came. */
  lemma MemberContent(o: Original, w: World, tables: map<Entry, Content>, stored: map<Entry, map<string, nat>>,
                      flat: nat, groups: seq<Entry>, loads: seq<Load>, i: nat, e: Entry)
    requires RunOk(groups, loads) && i < |loads| && loads[i].Loaded? && e in loads[i].members
    requires groups[i] in Turns(w, Start(tables, stored, flat), groups, loads).book.keys
    ensures var s := Start(tables, stored, flat);
      SameContent(o, Turns(w, s, groups, loads).book, e) <==> RightMember(o, Before(w, s, groups, loads, i), loads[i], e)
  {
    var s := Start(tables, stored, flat);
    KeptToTheEnd(w, tables, stored, flat, groups, loads, i);
    if e !in Before(w, s, groups, loads, i).modified {
      RenamedInItsTurn(w, tables, stored, flat, groups, loads, i, e);
      RenamingExactly(o, w, tables, stored, flat, groups, loads, i, e);
    }
  }

  /** A group that ends up migrated was migrated in its own turn, so its members are renamed by then. */
  lemma RenamedInItsTurn(w: World, tables: map<Entry, Content>, stored: map<Entry, map<string, nat>>,
                         flat: nat, groups: seq<Entry>, loads: seq<Load>, i: nat, e: Entry)
    requires RunOk(groups, loads) && i < |loads| && loads[i].Loaded? && e in loads[i].members
    requires groups[i] in Turns(w, Start(tables, stored, flat), groups, loads).book.keys
    ensures e in Before(w, Start(tables, stored, flat), groups, loads, i + 1).modified
  {
    var s := Start(tables, stored, flat);
    var r := Turns(w, s, groups[..i], loads[..i]);
    KeptToTheEnd(w, tables, stored, flat, groups, loads, i);
    KeptToTheEnd(w, tables, stored, flat, groups, loads, i + 1);
    assert groups[i] !in groups[i + 1..];
    assert groups[i] !in groups[..i];
    OneTurn(w, s, groups, loads, i);
    GroupMigrates(w, r.book, groups[i], loads[i], Gather(r.aliases, loads[i].aliases), r.flat);
  }

  /** No load up to turn n that listed e warned. */
  ghost predicate NeverWarned(loads: seq<Load>, n: nat, e: Entry)
    requires n <= |loads|
  {
    forall k :: 0 <= k < n && loads[k].Loaded? && e in loads[k].members ==> !loads[k].warned
  }

  /** No load before turn i that listed a member of its group warned. */
  ghost predicate Untainted(loads: seq<Load>, i: nat)
    requires i < |loads| && loads[i].Loaded?
  {
    forall e :: e in loads[i].members ==> NeverWarned(loads, i, e)
  }

  /** What the database is relied on for: every load lists the right members, and one that does not warn
      holds the right view of a table version that no earlier warned load listed. A version that one did
      list may have been left in the table's cache half filled. */
  ghost predicate Dependable(o: Original, groups: seq<Entry>, loads: seq<Load>)
    requires |groups| == |loads|
  {
    && (forall i :: 0 <= i < |loads| && loads[i].Loaded? ==> ListsRight(o, groups[i], loads[i]))
    && (forall i, e :: 0 <= i < |loads| && Clean(loads[i]) && e in loads[i].members && NeverWarned(loads, i, e) ==>
          RightView(o, loads[i], e))
  }

  /** In every run, whatever unrelated loads warn and whatever saves are refused: a renamed table that no
      warned load listed keeps its content, and a migrated group keeps its meaning if its own load was
      clean and no warned load before it listed one of its table versions. */
  lemma FlatteningKeepsMeaning(o: Original, w: World, tables: map<Entry, Content>, stored: map<Entry, map<string, nat>>,
                               flat: nat, groups: seq<Entry>, loads: seq<Load>)
    requires RunOk(groups, loads) && Dependable(o, groups, loads)
    ensures var b := Turns(w, Start(tables, stored, flat), groups, loads).book;
      && (forall e :: e in b.modified && NeverWarned(loads, |loads|, e) ==> SameContent(o, b, e))
      && (forall i :: 0 <= i < |loads| && Clean(loads[i]) && groups[i] in b.keys && Untainted(loads, i) ==>
            SameMeaning(o, b, groups[i]))
  {
    var b := Turns(w, Start(tables, stored, flat), groups, loads).book;
    forall e | e in b.modified && NeverWarned(loads, |loads|, e) ensures SameContent(o, b, e) {
      TableKeepsContent(o, w, tables, stored, flat, groups, loads, e);
    }
    forall i | 0 <= i < |loads| && Clean(loads[i]) && groups[i] in b.keys && Untainted(loads, i)
      ensures SameMeaning(o, b, groups[i])
    {
      GroupKeepsMeaning(o, w, tables, stored, flat, groups, loads, i);
    }
  }

  lemma TableKeepsContent(o: Original, w: World, tables: map<Entry, Content>, stored: map<Entry, map<string, nat>>,
                          flat: nat, groups: seq<Entry>, loads: seq<Load>, e: Entry)
    requires RunOk(groups, loads) && Dependable(o, groups, loads) && NeverWarned(loads, |loads|, e)
    requires e in Turns(w, Start(tables, stored, flat), groups, loads).book.modified
    ensures SameContent(o, Turns(w, Start(tables, stored, flat), groups, loads).book, e)
  {
    EveryRunAccounted(w, tables, stored, flat, groups, loads);
    var b := Turns(w, Start(tables, stored, flat), groups, loads).book;
    assert IntroducedBySome(b, e, loads) && loads[..|loads|] == loads;
    NeverWarnedIsRight(o, b, groups, loads, |loads|, e);
  }

  lemma GroupKeepsMeaning(o: Original, w: World, tables: map<Entry, Content>, stored: map<Entry, map<string, nat>>,
                          flat: nat, groups: seq<Entry>, loads: seq<Load>, i: nat)
    requires RunOk(groups, loads) && Dependable(o, groups, loads) && i < |loads| && Clean(loads[i]) && Untainted(loads, i)
    requires groups[i] in Turns(w, Start(tables, stored, flat), groups, loads).book.keys
    ensures SameMeaning(o, Turns(w, Start(tables, stored, flat), groups, loads).book, groups[i])
  {
    UntaintedIsRight(o, w, tables, stored, flat, groups, loads, i);
    GroupExactly(o, w, tables, stored, flat, groups, loads, i);
  }

  /** A renaming introduced by one of the first n loads, none of which warned of its table, is faithful. */
  lemma NeverWarnedIsRight(o: Original, b: Book, groups: seq<Entry>, loads: seq<Load>, n: nat, e: Entry)
    requires |groups| == |loads| && n <= |loads| && Dependable(o, groups, loads)
    requires IntroducedBySome(b, e, loads[..n]) && NeverWarned(loads, n, e)
    ensures SameContent(o, b, e)
  {
    var k :| 0 <= k < n && Introduced(b, e, loads[..n][k]);
    assert loads[..n][k] == loads[k] && NeverWarned(loads, k, e);
    IntroducedRight(o, b, e, loads[k]);
  }

  lemma UntaintedIsRight(o: Original, w: World, tables: map<Entry, Content>, stored: map<Entry, map<string, nat>>,
                         flat: nat, groups: seq<Entry>, loads: seq<Load>, i: nat)
    requires RunOk(groups, loads) && Dependable(o, groups, loads) && i < |loads| && Clean(loads[i]) && Untainted(loads, i)
    ensures RightMembers(o, Before(w, Start(tables, stored, flat), groups, loads, i), loads[i])
  {
    var before := Before(w, Start(tables, stored, flat), groups, loads, i);
    EveryRunAccounted(w, tables, stored, flat, groups[..i], loads[..i]);
    forall e | e in loads[i].members ensures RightMember(o, before, loads[i], e) {
      if e in before.modified { NeverWarnedIsRight(o, before, groups, loads, i, e); }
    }
  }

  // ---------------------------------------------------------------------------
  // Which numbers, and which groups
  // ---------------------------------------------------------------------------

  /** How many loads did not raise. */
  function Succeeded(loads: seq<Load>): nat {
    if loads == [] then 0
    else Succeeded(loads[..|loads| - 1]) + if loads[|loads| - 1] == Failed then 0 else 1
  }

  /** The flat version goes up by one for every load that does not raise, and for no other. */
  lemma {:induction false} FlatVersion(w: World, r: Run, groups: seq<Entry>, loads: seq<Load>)
    requires |groups| == |loads|
    ensures Turns(w, r, groups, loads).flat == r.flat + Succeeded(loads)
  {
    if groups != [] { FlatVersion(w, r, groups[..|groups| - 1], loads[..|loads| - 1]); }
  }

  /** Everything that the turn of a group has to save finds its place free and is accepted: the views of the
      members not renamed before, the metadata table, and the group. */
  ghost predicate AllAccepted(w: World, b: Book, g: Entry, l: Load, flat: nat)
    requires l.Loaded?
  {
    && (forall i :: 0 <= i < |l.members| && l.members[i] !in b.modified ==> MemberAccepted(w, b, l, flat, l.members[i]))
    && Entry("TableGroupMetadata", flat) !in b.tables && w.tableFate(Entry("TableGroupMetadata", flat)) == Accepted
    && Entry(g.name, flat) !in b.groups && w.groupFate(Entry(g.name, flat)) == Accepted
  }

  predicate MemberAccepted(w: World, b: Book, l: Load, flat: nat, e: Entry)
    requires l.Loaded?
  {
    && e.name in l.views && e.name != "TableGroupMetadata"
    && Entry(e.name, flat) !in b.tables && w.tableFate(Entry(e.name, flat)) == Accepted
  }

  /** The loop over the members goes through exactly if each save in it is accepted. */
  ghost predicate MembersAccepted(w: World, b: Book, views: map<string, Content>, flat: nat, members: seq<Entry>) {
    forall i :: 0 <= i < |members| && members[i] !in b.modified ==>
      members[i].name in views && Entry(members[i].name, flat) !in b.tables && w.tableFate(Entry(members[i].name, flat)) == Accepted
  }

  lemma {:induction false} MembersGoThrough(w: World, b: Book, views: map<string, Content>, flat: nat,
                                            members: seq<Entry>, renamed: map<string, nat>)
    requires DistinctNames(members)
    ensures SaveMembers(w, b, views, flat, members, renamed).ok <==> MembersAccepted(w, b, views, flat, members)
    decreases |members|
  {
    if members != [] {
      var f := AfterFirst(w, b, views, flat, members[0]);
      Unrolled(w, b, views, flat, members, renamed);
      if f.ok {
        MembersGoThrough(w, f.book, views, flat, members[1..], renamed + f.renamed);
        OthersUnmoved(w, b, views, flat, members);
      } else {
        assert members[0] !in b.modified;
      }
    }
  }

  /** Saving the first member does not change what the others have to save. */
  lemma OthersUnmoved(w: World, b: Book, views: map<string, Content>, flat: nat, members: seq<Entry>)
    requires members != [] && DistinctNames(members) && AfterFirst(w, b, views, flat, members[0]).ok
    ensures MembersAccepted(w, b, views, flat, members) <==>
      MembersAccepted(w, AfterFirst(w, b, views, flat, members[0]).book, views, flat, members[1..])
  {
    var book := AfterFirst(w, b, views, flat, members[0]).book;
    var rest := members[1..];
    forall i | 0 <= i < |rest|
      ensures (rest[i] in book.modified <==> rest[i] in b.modified)
        && (Entry(rest[i].name, flat) in book.tables <==> Entry(rest[i].name, flat) in b.tables)
    {
      assert rest[i] == members[i + 1] && members[0].name != members[i + 1].name;
    }
    if MembersAccepted(w, book, views, flat, rest) {
      forall i | 0 <= i < |members| && members[i] !in b.modified
        ensures members[i].name in views && Entry(members[i].name, flat) !in b.tables
          && w.tableFate(Entry(members[i].name, flat)) == Accepted
      {
        if i > 0 { assert rest[i - 1] == members[i]; }
      }
    }
  }

  /** The places taken in the course of the member loop. */
  lemma {:induction false} PlacesTaken(w: World, b: Book, views: map<string, Content>, flat: nat,
                                       members: seq<Entry>, renamed: map<string, nat>, name: string)
    requires DistinctNames(members) && SaveMembers(w, b, views, flat, members, renamed).ok
    ensures SaveMembers(w, b, views, flat, members, renamed).book.groups == b.groups
    ensures Entry(name, flat) in SaveMembers(w, b, views, flat, members, renamed).book.tables <==>
      Entry(name, flat) in b.tables || exists i :: 0 <= i < |members| && members[i] !in b.modified && members[i].name == name
    decreases |members|
  {
    if members != [] {
      var f := AfterFirst(w, b, views, flat, members[0]);
      var rest := members[1..];
      Unrolled(w, b, views, flat, members, renamed);
      PlacesTaken(w, f.book, views, flat, rest, renamed + f.renamed, name);
      assert forall i :: 0 <= i < |rest| ==> rest[i] == members[i + 1];
      assert forall i :: 0 <= i < |rest| ==> (rest[i] in f.book.modified <==> rest[i] in b.modified);
    }
  }

  /** The turn of a group migrates it exactly if everything it has to save is accepted, and then under the
      flat version. */
  lemma MigratesExactly(w: World, b: Book, g: Entry, l: Load, aliases: map<string, string>, flat: nat)
    requires l.Loaded? && DistinctNames(l.members) && g !in b.keys && Sound(b, flat)
    ensures var b' := SaveGroup(w, b, g, l, aliases, flat);
      (g in b'.keys <==> AllAccepted(w, b, g, l, flat)) && (g in b'.keys ==> b'.keys[g] == flat)
  {
    MembersGoThrough(w, b, l.views, flat, l.members, map[]);
    MembersGrow(w, b, l.views, flat, l.members, map[]);
    var s := SaveMembers(w, b, l.views, flat, l.members, map[]);
    if s.ok {
      PlacesTaken(w, b, l.views, flat, l.members, map[], METADATA_TABLE);
      CloseExactly(w, s.book, s.renamed, g, Metadata(aliases, l.comment, l.author, l.time), flat);
    }
  }

  lemma CloseExactly(w: World, b: Book, renamed: map<string, nat>, g: Entry, meta: Content, flat: nat)
    requires g !in b.keys
    ensures var b' := CloseGroup(w, b, renamed, g, meta, flat);
      && (g in b'.keys <==>
            && Entry(METADATA_TABLE, flat) !in b.tables && w.tableFate(Entry(METADATA_TABLE, flat)) == Accepted
            && Entry(g.name, flat) !in b.groups && w.groupFate(Entry(g.name, flat)) == Accepted)
      && (g in b'.keys ==> b'.keys[g] == flat)
  {
  }

  /** A group that ends up migrated is migrated in its own turn, and keeps its key. */
  lemma MigratedInItsTurn(w: World, tables: map<Entry, Content>, stored: map<Entry, map<string, nat>>, flat: nat,
                          groups: seq<Entry>, loads: seq<Load>, i: nat)
    requires RunOk(groups, loads) && i < |groups|
    ensures var s := Start(tables, stored, flat);
      var b, after := Turns(w, s, groups, loads).book, Before(w, s, groups, loads, i + 1);
      && groups[i] !in Before(w, s, groups, loads, i).keys
      && (groups[i] in b.keys <==> groups[i] in after.keys)
      && (groups[i] in b.keys ==> b.keys[groups[i]] == after.keys[groups[i]])
  {
    KeptToTheEnd(w, tables, stored, flat, groups, loads, i);
    KeptToTheEnd(w, tables, stored, flat, groups, loads, i + 1);
    assert groups[i] !in groups[i + 1..] && groups[i] !in groups[..i];
  }

  /** The group has a new key if and only if its load did not raise and everything its turn had to save was
      accepted, and that key is the number given. */
  ghost predicate NumberedAs(w: World, before: Book, g: Entry, l: Load, number: nat, b: Book) {
    (g in b.keys <==> l != Failed && AllAccepted(w, before, g, l, number)) && (g in b.keys ==> b.keys[g] == number)
  }

  /** In every run, every group is so numbered with the first flat version plus the number of loads before it
      that did not raise. */
  lemma NumberedExactly(w: World, tables: map<Entry, Content>, stored: map<Entry, map<string, nat>>, flat: nat,
                        groups: seq<Entry>, loads: seq<Load>, i: nat)
    requires RunOk(groups, loads) && i < |groups|
    ensures var s := Start(tables, stored, flat);
      NumberedAs(w, Before(w, s, groups, loads, i), groups[i], loads[i], flat + Succeeded(loads[..i]), Turns(w, s, groups, loads).book)
  {
    var s := Start(tables, stored, flat);
    var after := Before(w, s, groups, loads, i + 1);
    NumberedInTurn(w, tables, stored, flat, groups, loads, i);
    MigratedInItsTurn(w, tables, stored, flat, groups, loads, i);
    NumberStays(w, Before(w, s, groups, loads, i), groups[i], loads[i], flat + Succeeded(loads[..i]), after, Turns(w, s, groups, loads).book);
  }

  lemma NumberStays(w: World, before: Book, g: Entry, l: Load, number: nat, after: Book, b: Book)
    requires NumberedAs(w, before, g, l, number, after)
    requires (g in b.keys <==> g in after.keys) && (g in b.keys ==> b.keys[g] == after.keys[g])
    ensures NumberedAs(w, before, g, l, number, b)
  {
  }

  lemma NumberedInTurn(w: World, tables: map<Entry, Content>, stored: map<Entry, map<string, nat>>, flat: nat,
                       groups: seq<Entry>, loads: seq<Load>, i: nat)
    requires RunOk(groups, loads) && i < |groups|
    ensures var s := Start(tables, stored, flat);
      NumberedAs(w, Before(w, s, groups, loads, i), groups[i], loads[i], flat + Succeeded(loads[..i]), Before(w, s, groups, loads, i + 1))
  {
    var s := Start(tables, stored, flat);
    var r := Turns(w, s, groups[..i], loads[..i]);
    SoundBefore(w, tables, stored, flat, groups, loads, i);
    TurnMigratesExactly(w, r, groups[i], loads[i]);
    TurnAndNumber(w, s, groups, loads, i);
  }

  lemma TurnAndNumber(w: World, s: Run, groups: seq<Entry>, loads: seq<Load>, i: nat)
    requires |groups| == |loads| && i < |groups|
    ensures var r := Turns(w, s, groups[..i], loads[..i]);
      r.flat == s.flat + Succeeded(loads[..i]) && Before(w, s, groups, loads, i + 1) == Turn(w, r, groups[i], loads[i]).book
  {
    FlatVersion(w, s, groups[..i], loads[..i]);
    OneTurn(w, s, groups, loads, i);
  }

  lemma SoundBefore(w: World, tables: map<Entry, Content>, stored: map<Entry, map<string, nat>>, flat: nat,
                    groups: seq<Entry>, loads: seq<Load>, i: nat)
    requires RunOk(groups, loads) && i < |groups|
    ensures var r := Turns(w, Start(tables, stored, flat), groups[..i], loads[..i]);
      Sound(r.book, r.flat) && groups[i] !in r.book.keys
  {
    KeptToTheEnd(w, tables, stored, flat, groups, loads, i);
    assert groups[i] !in groups[..i];
  }

  lemma TurnMigratesExactly(w: World, r: Run, g: Entry, l: Load)
    requires Sound(r.book, r.flat) && g !in r.book.keys && (l.Loaded? ==> DistinctNames(l.members))
    ensures NumberedAs(w, r.book, g, l, r.flat, Turn(w, r, g, l).book)
  {
    if l != Failed { MigratesExactly(w, r.book, g, l, Gather(r.aliases, l.aliases), r.flat); }
  }

  /** In every run, a table renamed in turn i has the first flat version plus the number of loads before it
      that did not raise. */
  lemma RenumberedExactly(w: World, tables: map<Entry, Content>, stored: map<Entry, map<string, nat>>, flat: nat,
                          groups: seq<Entry>, loads: seq<Load>, i: nat, e: Entry)
    requires RunOk(groups, loads) && i < |groups| && MadeIn(w, Start(tables, stored, flat), groups, loads, i, e)
    ensures var b := Turns(w, Start(tables, stored, flat), groups, loads).book;
      e in b.modified && b.modified[e] == flat + Succeeded(loads[..i])
  {
    var s := Start(tables, stored, flat);
    var r := Turns(w, s, groups[..i], loads[..i]);
    FlatVersion(w, s, groups[..i], loads[..i]);
    OneTurn(w, s, groups, loads, i);
    KeptToTheEnd(w, tables, stored, flat, groups, loads, i);
    KeptToTheEnd(w, tables, stored, flat, groups, loads, i + 1);
    RenamedToFlat(w, r.book, groups[i], loads[i], Gather(r.aliases, loads[i].aliases), r.flat, e);
  }

  lemma RenamedToFlat(w: World, b: Book, g: Entry, l: Load, aliases: map<string, string>, flat: nat, e: Entry)
    requires l.Loaded? && DistinctNames(l.members) && Sound(b, flat)
    requires e in SaveGroup(w, b, g, l, aliases, flat).modified && e !in b.modified
    ensures SaveGroup(w, b, g, l, aliases, flat).modified[e] == flat
  {
    GroupAdds(w, b, g, l, aliases, flat);
    MembersStored(w, b, l.views, flat, l.members, map[], e);
  }

  /** A world without refusals, one table, and two groups that share it; the first load warned
      and held the wrong view of the table. */
  const SHARED := Entry("ATable", 5)
  const FIRST := Entry("First", 1)
  const SECOND := Entry("Second", 1)
  const ORIGINAL := Original(map[SHARED := Rows("right")], map[FIRST := [SHARED], SECOND := [SHARED]])
  const WILLING := World(_ => Accepted, _ => Accepted)
  const BAD := Loaded(true, [SHARED], map["ATable" := Rows("wrong")], map[], "", "", "0")
  const GOOD := Loaded(false, [SHARED], map["ATable" := Rows("right")], map[], "", "", "0")

  lemma FirstTurn()
    ensures var b := Turn(WILLING, Start(map[], map[], 0), FIRST, BAD).book;
      && b.modified == map[SHARED := 0] && b.keys == map[FIRST := 0]
      && Entry("ATable", 0) in b.tables && b.tables[Entry("ATable", 0)] == Rows("wrong")
      && b.groups.Keys == {Entry("First", 0)} && Entry(METADATA_TABLE, 1) !in b.tables
  {
    OneMember(WILLING, Start(map[], map[], 0).book, BAD.views, 0, SHARED);
  }

  lemma SecondTurn(r: Run)
    requires r.flat == 1 && r.book.modified == map[SHARED := 0] && r.book.keys == map[FIRST := 0]
    requires Entry("ATable", 0) in r.book.tables && r.book.tables[Entry("ATable", 0)] == Rows("wrong")
    requires Entry("Second", 1) !in r.book.groups && Entry(METADATA_TABLE, 1) !in r.book.tables
    ensures var b := Turn(WILLING, r, SECOND, GOOD).book;
      && SECOND in b.keys && b.keys[SECOND] == 1 && Entry("Second", 1) in b.groups
      && "ATable" in b.groups[Entry("Second", 1)] && b.groups[Entry("Second", 1)]["ATable"] == 0
      && Entry("ATable", 0) in b.tables && b.tables[Entry("ATable", 0)] == Rows("wrong")
  {
    OneMember(WILLING, r.book, GOOD.views, 1, SHARED);
  }

  /** A remembered mistake: the second load was clean, and the second group is saved with the
      wrong content all the same. */
  lemma RememberedMistake()
    ensures var b := Turns(WILLING, Start(map[], map[], 0), [FIRST, SECOND], [BAD, GOOD]).book;
      && Dependable(ORIGINAL, [FIRST, SECOND], [BAD, GOOD]) && !GOOD.warned
      && SECOND in b.keys && !SameMeaning(ORIGINAL, b, SECOND)
  {
    var r := Turn(WILLING, Start(map[], map[], 0), FIRST, BAD);
    FirstTurn();
    SecondTurn(r);
    TwoTurns(WILLING, Start(map[], map[], 0), FIRST, BAD, SECOND, GOOD);
    var b := Turn(WILLING, r, SECOND, GOOD).book;
    assert !SameMember(ORIGINAL, b, SECOND, ORIGINAL.groups[SECOND][0]);
    MistakesAreDependable(GOOD);
  }

  lemma MistakesAreDependable(second: Load)
    requires second.Loaded? && !second.warned && second.members == [SHARED]
    ensures Dependable(ORIGINAL, [FIRST, SECOND], [BAD, second])
  {
    var groups, loads := [FIRST, SECOND], [BAD, second];
    assert loads[0] == BAD && loads[1] == second && groups[0] == FIRST && groups[1] == SECOND;
    assert SHARED in loads[0].members && !NeverWarned(loads, 1, SHARED);
  }

  /** A world in which nothing of the first group can be saved. */
  const UNWILLING := World((e: Entry) => if e.number == 0 then Refused else Accepted, _ => Accepted)

  /** What a load without warnings can hold: the view a warned load left in the cache. */
  const STALE := Loaded(false, [SHARED], map["ATable" := Rows("wrong")], map[], "", "", "0")

  /** The warned load left nothing in the renaming, only in the cache, and the clean load that follows saves it. */
  lemma CachedMistake()
    ensures var b := Turns(UNWILLING, Start(map[], map[], 0), [FIRST, SECOND], [BAD, STALE]).book;
      && Dependable(ORIGINAL, [FIRST, SECOND], [BAD, STALE]) && !STALE.warned
      && Before(UNWILLING, Start(map[], map[], 0), [FIRST, SECOND], [BAD, STALE], 1).modified == map[]
      && SECOND in b.keys && !SameMeaning(ORIGINAL, b, SECOND)
  {
    var s := Start(map[], map[], 0);
    var r := Turn(UNWILLING, s, FIRST, BAD);
    OneMember(UNWILLING, s.book, BAD.views, 0, SHARED);
    assert r.book == s.book && r.flat == 1;
    OneMember(UNWILLING, r.book, STALE.views, 1, SHARED);
    TwoTurns(UNWILLING, s, FIRST, BAD, SECOND, STALE);
    OneOfTwo(UNWILLING, s, FIRST, BAD, SECOND, STALE);
    var b := Turn(UNWILLING, r, SECOND, STALE).book;
    assert b.tables[Entry("ATable", 1)] == Rows("wrong");
    assert !SameMember(ORIGINAL, b, SECOND, ORIGINAL.groups[SECOND][0]);
    MistakesAreDependable(STALE);
  }

  lemma OneOfTwo(w: World, r: Run, g: Entry, l: Load, h: Entry, m: Load)
    ensures Turns(w, r, [g, h][..1], [l, m][..1]) == Turn(w, r, g, l)
  {
    assert [g, h][..1] == [g] && [l, m][..1] == [l];
    assert [g][..0] == [] && [l][..0] == [];
  }

  lemma TwoTurns(w: World, r: Run, g: Entry, l: Load, h: Entry, m: Load)
    ensures Turns(w, r, [g, h], [l, m]) == Turn(w, Turn(w, r, g, l), h, m)
  {
    var one := Turns(w, r, [g], [l]);
    calc {
      one;
      Turn(w, Turns(w, r, [g][..0], [l][..0]), g, l);
      { assert [g][..0] == [] && [l][..0] == []; }
      Turn(w, r, g, l);
    }
    assert [g, h][..1] == [g] && [l, m][..1] == [l];
  }

  lemma OneMember(w: World, b: Book, views: map<string, Content>, flat: nat, m: Entry)
    ensures SaveMembers(w, b, views, flat, [m], map[]) ==
      var f := AfterFirst(w, b, views, flat, m);
      if f.ok then Saved(f.book, f.renamed, true) else Saved(f.book, map[], false)
  {
    Unrolled(w, b, views, flat, [m], map[]);
    assert [m][1..] == [];
    var f := AfterFirst(w, b, views, flat, m);
    assert map[] + f.renamed == f.renamed;
  }

  /** An alias read for several groups keeps the value of the first that had it. */
  lemma {:induction false} FirstAliasWins(loads: seq<Load>, i: nat, k: string)
    requires i < |loads| && loads[i].Loaded? && k in loads[i].aliases
    requires forall h :: 0 <= h < i && loads[h].Loaded? ==> k !in loads[h].aliases
    ensures k in Held(loads) && Held(loads)[k] == loads[i].aliases[k]
  {
    var n := |loads| - 1;
    if i < n {
      FirstAliasWins(loads[..n], i, k);
    } else {
      NoAlias(loads[..n], k);
    }
  }

  lemma {:induction false} NoAlias(loads: seq<Load>, k: string)
    requires forall h :: 0 <= h < |loads| && loads[h].Loaded? ==> k !in loads[h].aliases
    ensures k !in Held(loads)
  {
    if loads != [] { NoAlias(loads[..|loads| - 1], k); }
  }

  /** The metadata saved for a group carries that group's own aliases if and only if every
      alias held from the groups before it is also its own, with the same value. */
  lemma OwnAliasesExactly(loads: seq<Load>, i: nat)
    requires i < |loads| && loads[i].Loaded?
    ensures Held(loads[..i + 1]) == loads[i].aliases <==>
      forall k :: k in Held(loads[..i]) ==> k in loads[i].aliases && loads[i].aliases[k] == Held(loads[..i])[k]
  {
    var held, own := Held(loads[..i]), loads[i].aliases;
    assert loads[..i + 1][..i] == loads[..i];
    assert Held(loads[..i + 1]) == own + held;
    if own + held == own {
      forall k | k in held ensures k in own && own[k] == held[k] {
        assert k in own + held;
      }
    }
  }

  /** The second of two groups is saved with the alias of the first, which it does not have. */
  lemma ForeignAlias(first: Load, second: Load, k: string)
    requires first.Loaded? && second.Loaded? && k in first.aliases && k !in second.aliases
    ensures k in Held([first, second][..2]) && Held([first, second][..2]) != second.aliases
  {
    FirstAliasWins([first, second], 0, k);
    assert [first, second][..2] == [first, second];
  }

  // ---------------------------------------------------------------------------
  // The tool itself
  // ---------------------------------------------------------------------------

  class Flattener {
    var modifiedTables: map<Entry, nat>
    var newTables: map<Entry, Content>
    var newGroups: map<Entry, map<string, nat>>
    var groupSet: map<Entry, nat>
    var flatVersion: nat
    var groupAliases: map<string, string>

    constructor (tables: map<Entry, Content>, groups: map<Entry, map<string, nat>>, flat: nat)
      ensures Now() == Start(tables, groups, flat)
    {
      modifiedTables, newTables, newGroups, groupSet := map[], tables, groups, map[];
      flatVersion, groupAliases := flat, map[];
    }

    ghost function Now(): Run
      reads this
    {
      Run(Book(modifiedTables, newTables, newGroups, groupSet), flatVersion, groupAliases)
    }

    method SaveTables(w: World, views: map<string, Content>, members: seq<Entry>)
      returns (memberMap: map<string, nat>, ok: bool)
      modifies this`modifiedTables, this`newTables
      ensures Saved(Now().book, memberMap, ok) == SaveMembers(w, old(Now()).book, views, flatVersion, members, map[])
    {
      memberMap, ok := map[], true;
      ghost var goal := SaveMembers(w, Now().book, views, flatVersion, members, map[]);
      var i := 0;
      while i < |members|
        invariant 0 <= i <= |members|
        invariant ok && SaveMembers(w, Now().book, views, flatVersion, members[i..], memberMap) == goal
      {
        var m := members[i];
        assert members[i..][0] == m && members[i..][1..] == members[i + 1..];
        if m in modifiedTables {
          memberMap := memberMap[m.name := modifiedTables[m]];
        } else if m.name !in views {
          return memberMap, false;
        } else {
          var saved := Save(w.tableFate, newTables, Entry(m.name, flatVersion), views[m.name]);
          newTables, ok := saved.0, saved.1;
          if !ok { return; }
          modifiedTables := modifiedTables[m := flatVersion];
          memberMap := memberMap[m.name := flatVersion];
        }
        i := i + 1;
      }
    }

    method SaveLoadedGroup(w: World, g: Entry, l: Load)
      requires l.Loaded?
      modifies this`modifiedTables, this`newTables, this`newGroups, this`groupSet
      ensures Now().book == SaveGroup(w, old(Now()).book, g, l, groupAliases, flatVersion)
    {
      var memberMap, ok := SaveTables(w, l.views, l.members);
      if !ok { return; }
      ghost var afterMembers := Now().book;
      var savedMeta := Save(w.tableFate, newTables, Entry(METADATA_TABLE, flatVersion),
                            Metadata(groupAliases, l.comment, l.author, l.time));
      newTables := savedMeta.0;
      assert Now().book == afterMembers.(tables := savedMeta.0);
      if !savedMeta.1 { return; }
      var savedGroup := Save(w.groupFate, newGroups, Entry(g.name, flatVersion), memberMap[METADATA_TABLE := flatVersion]);
      newGroups := savedGroup.0;
      if savedGroup.1 { groupSet := groupSet[g := flatVersion]; }
    }

    /** The loop over the groups. A group whose load raised is passed over. */
    method FlattenGroups(w: World, groups: seq<Entry>, loads: seq<Load>)
      requires |groups| == |loads|
      modifies this
      ensures Now() == Turns(w, old(Now()), groups, loads)
    {
      var i := 0;
      while i < |groups|
        invariant 0 <= i <= |groups|
        invariant Now() == Turns(w, old(Now()), groups[..i], loads[..i])
      {
        assert groups[..i + 1][..i] == groups[..i] && loads[..i + 1][..i] == loads[..i];
        var l := loads[i];
        if l.Loaded? {
          groupAliases := Gather(groupAliases, l.aliases);
          SaveLoadedGroup(w, groups[i], l);
          flatVersion := flatVersion + 1;
        }
        i := i + 1;
      }
      assert groups[..i] == groups && loads[..i] == loads;
    }
  }
}
