/** The directory protocol around flattening: the original database is moved aside, moved back
    for every load, and moved aside again before anything is saved. */
module Directories {

  /** The four paths: the current database, current plus the time, that plus "_tmp", and the
      database to swap in. */
  datatype Path = Current | Aside | Holding | SwapIn

  /** Which database a directory is. `Fresh` is the one a first save creates. */
  datatype Database = Original | Swapped | Fresh | Other

  /** What the environment decides for one group. */
  datatype Turn = Turn(loadFails: bool, saves: nat)

  /** The directories, those of them without entries, the renames made so far, where groups were
      loaded from, where tables and groups were saved to, and where read-me and marker files were written. */
  datatype Disk = Disk(at: map<Path, Database>, empty: set<Database>, calls: nat,
                       loaded: seq<Database>, saved: seq<Database>, notes: seq<Database>, marks: seq<Database>)

  // ---------------------------------------------------------------------------
  // The protocol
  // ---------------------------------------------------------------------------

  /** rename() as POSIX.1-2017 has it: the source must exist, an existing target must be an empty directory. */
  predicate CanMove(d: Disk, from: Path, to: Path) {
    from in d.at && (to in d.at ==> d.at[to] in d.empty)
  }

  /** A rename, which the system may also refuse for reasons of its own. */
  function Renamed(d: Disk, from: Path, to: Path, refuses: nat -> bool): (Disk, bool) {
    var ok := CanMove(d, from, to) && !refuses(d.calls);
    (d.(calls := d.calls + 1, at := if ok then (d.at - {from})[to := d.at[from]] else d.at), ok)
  }

  /** Saving goes to the current path and creates the database there if there is none. */
  function Saved(d: Disk): Disk {
    var database := if Current in d.at then d.at[Current] else Fresh;
    d.(at := d.at[Current := database], empty := d.empty - {database}, saved := d.saved + [database])
  }

  function SavedTimes(d: Disk, n: nat): Disk {
    if n == 0 then d else Saved(SavedTimes(d, n - 1))
  }

  /** Where the new database waits while the original is back. */
  function Parked(d: Disk, swapping: bool, count: nat, refuses: nat -> bool): (Disk, bool) {
    if swapping then Renamed(d, Current, SwapIn, refuses)
    else if count > 0 then Renamed(d, Current, Holding, refuses)
    else (d, true)
  }

  function Unparked(d: Disk, swapping: bool, count: nat, refuses: nat -> bool): (Disk, bool) {
    if swapping then Renamed(d, SwapIn, Current, refuses)
    else if count > 0 then Renamed(d, Holding, Current, refuses)
    else (d, true)
  }

  datatype Done = Done(disk: Disk, threw: bool)

  /** One group: bring the original back, load, move it aside again, then save. */
  function OneGroup(d: Disk, swapping: bool, count: nat, turn: Turn, refuses: nat -> bool): Done {
    var (d1, parked) := Parked(d, swapping, count, refuses);
    if !parked then Done(d1, true) else
    var (d2, back) := Renamed(d1, Aside, Current, refuses);
    if !back then Done(d2, true) else
    var (d3, aside) := Renamed(d2.(loaded := d2.loaded + [d2.at[Current]]), Current, Aside, refuses);
    if !aside then Done(d3, true) else
    var (d4, unparked) := Unparked(d3, swapping, count, refuses);
    if !unparked then Done(d4, true)
    else Done(if turn.loadFails then d4 else SavedTimes(d4, turn.saves), false)
  }

  /** The loop over the groups; a failed load is not counted. */
  function Groups(d: Disk, swapping: bool, count: nat, turns: seq<Turn>, refuses: nat -> bool): Done
    decreases |turns|
  {
    if turns == [] then Done(d, false)
    else
      var one := OneGroup(d, swapping, count, turns[0], refuses);
      if one.threw then one
      else Groups(one.disk, swapping, if turns[0].loadFails then count else count + 1, turns[1..], refuses)
  }

  /** What is decided outside the tool for one run; `marking` is false if a persistent run ends at an
      active-groups file it cannot open. */
  datatype Setting = Setting(persistent: bool, turns: seq<Turn>, backboneSaves: nat, marking: bool, refuses: nat -> bool)

  /** A line is appended to the read-me file of the directory at p, if there is one. */
  function Noted(d: Disk, p: Path): Disk {
    if p in d.at then d.(empty := d.empty - {d.at[p]}, notes := d.notes + [d.at[p]]) else d
  }

  /** The four marker files are written into the current directory, if there is one. */
  function Marked(d: Disk): Disk {
    if Current in d.at
    then d.(empty := d.empty - {d.at[Current]}, marks := d.marks + [d.at[Current], d.at[Current], d.at[Current], d.at[Current]])
    else d
  }

  /** The renames at the start, whose results nobody looks at. */
  function Begun(d: Disk, swapping: bool, refuses: nat -> bool): Disk {
    var d1 := Renamed(d, Current, Aside, refuses).0;
    if swapping then Renamed(d1, SwapIn, Current, refuses).0 else d1
  }

  function Flattened(d: Disk, swapping: bool, s: Setting): Done {
    var d1 := Begun(d, swapping, s.refuses);
    if !s.persistent then Done(Marked(d1), false)
    else
      var g := Groups(d1, swapping, 0, s.turns, s.refuses);
      if g.threw then g
      else
        var saved := SavedTimes(Noted(Noted(g.disk, Aside), Current), s.backboneSaves);
        Done(if s.marking then Marked(saved) else saved, false)
  }

  // ---------------------------------------------------------------------------
  // What it is to keep
  // ---------------------------------------------------------------------------

  /** The original database is at path p and at no other. */
  ghost predicate HomeIs(at: map<Path, Database>, p: Path) {
    p in at && at[p] == Original && forall q :: q in at && at[q] == Original ==> q == p
  }

  ghost predicate OneHome(at: map<Path, Database>) {
    exists p :: HomeIs(at, p)
  }

  /** The original is at exactly one path, every group was loaded from it, and nothing was saved into it. */
  ghost predicate Safe(d: Disk) {
    && OneHome(d.at) && Original !in d.empty
    && (forall i :: 0 <= i < |d.loaded| ==> d.loaded[i] == Original)
    && (forall i :: 0 <= i < |d.saved| ==> d.saved[i] != Original)
  }

  /** What the tool knows when it starts: it has the current database, some groups, and has opened the
      directory to swap in. */
  ghost predicate StartOk(d: Disk, swapping: bool) {
    && HomeIs(d.at, Current) && Original !in d.empty && d.calls == 0
    && d.loaded == [] && d.saved == [] && d.notes == [] && d.marks == []
    && (swapping ==> SwapIn in d.at)
  }

  /** The path to move aside to is free, or nothing can be moved onto the directory to swap in. */
  predicate PathsOk(d: Disk, swapping: bool)
    requires swapping ==> SwapIn in d.at
  {
    swapping && Aside in d.at ==> d.at[SwapIn] !in d.empty
  }

  /** The original is aside or, before the first group, still where it was and safe there. */
  ghost predicate Ready(d: Disk, swapping: bool, count: nat) {
    && Safe(d)
    && (HomeIs(d.at, Aside) ||
        (HomeIs(d.at, Current) && count == 0 &&
         (swapping && Aside in d.at ==> SwapIn in d.at && d.at[SwapIn] !in d.empty)))
  }

  lemma RenameKeepsHome(d: Disk, from: Path, to: Path, refuses: nat -> bool, p: Path)
    requires from != to && HomeIs(d.at, p) && Original !in d.empty
    ensures var (d', ok) := Renamed(d, from, to, refuses); HomeIs(d'.at, if ok && p == from then to else p)
  {
  }

  lemma {:induction false} SavesKeepSafe(d: Disk, n: nat)
    requires Safe(d) && HomeIs(d.at, Aside)
    ensures Safe(SavedTimes(d, n)) && HomeIs(SavedTimes(d, n).at, Aside)
  {
    if n > 0 {
      SavesKeepSafe(d, n - 1);
      assert HomeIs(Saved(SavedTimes(d, n - 1)).at, Aside);
    }
  }

  /** With the original aside, parking the new database leaves it there. */
  lemma ParkedAside(d: Disk, swapping: bool, count: nat, refuses: nat -> bool)
    requires Safe(d) && HomeIs(d.at, Aside)
    ensures var (d1, _) := Parked(d, swapping, count, refuses); Safe(d1) && HomeIs(d1.at, Aside)
    ensures var (d1, _) := Unparked(d, swapping, count, refuses); Safe(d1) && HomeIs(d1.at, Aside)
  {
    RenameKeepsHome(d, Current, SwapIn, refuses, Aside);
    RenameKeepsHome(d, Current, Holding, refuses, Aside);
    RenameKeepsHome(d, SwapIn, Current, refuses, Aside);
    RenameKeepsHome(d, Holding, Current, refuses, Aside);
  }

  /** With the original still at the current path, the group ends in an exception before anything is loaded. */
  lemma StillCurrent(d: Disk, swapping: bool, turn: Turn, refuses: nat -> bool)
    requires Ready(d, swapping, 0) && HomeIs(d.at, Current)
    ensures var o := OneGroup(d, swapping, 0, turn, refuses); o.threw && Safe(o.disk)
  {
    var (d1, parked) := Parked(d, swapping, 0, refuses);
    if swapping { RenameKeepsHome(d, Current, SwapIn, refuses, Current); }
    assert Safe(d1);
    if parked {
      var p := if swapping then SwapIn else Current;
      assert HomeIs(d1.at, p);
      RenameKeepsHome(d1, Aside, Current, refuses, p);
    }
  }

  lemma OneGroupSafe(d: Disk, swapping: bool, count: nat, turn: Turn, refuses: nat -> bool)
    requires Ready(d, swapping, count)
    ensures var o := OneGroup(d, swapping, count, turn, refuses); Safe(o.disk) && (!o.threw ==> HomeIs(o.disk.at, Aside))
  {
    if !HomeIs(d.at, Aside) {
      StillCurrent(d, swapping, turn, refuses);
    } else {
      ParkedAside(d, swapping, count, refuses);
      var (d1, parked) := Parked(d, swapping, count, refuses);
      if parked { LoadAndSave(d1, swapping, count, turn, refuses); }
    }
  }

  /** From the moment the new database is parked. */
  lemma LoadAndSave(d1: Disk, swapping: bool, count: nat, turn: Turn, refuses: nat -> bool)
    requires Safe(d1) && HomeIs(d1.at, Aside)
    ensures var (d2, back) := Renamed(d1, Aside, Current, refuses);
      && Safe(d2)
      && (back ==>
            && HomeIs(d2.at, Current)
            && var (d3, aside) := Renamed(d2.(loaded := d2.loaded + [d2.at[Current]]), Current, Aside, refuses);
               && Safe(d3)
               && (aside ==>
                     && HomeIs(d3.at, Aside)
                     && var (d4, _) := Unparked(d3, swapping, count, refuses);
                        Safe(d4) && HomeIs(d4.at, Aside)
                        && Safe(SavedTimes(d4, turn.saves)) && HomeIs(SavedTimes(d4, turn.saves).at, Aside)))
  {
    RenameKeepsHome(d1, Aside, Current, refuses, Aside);
    var (d2, back) := Renamed(d1, Aside, Current, refuses);
    if back {
      var l := d2.(loaded := d2.loaded + [d2.at[Current]]);
      RenameKeepsHome(l, Current, Aside, refuses, Current);
      var (d3, aside) := Renamed(l, Current, Aside, refuses);
      if aside {
        ParkedAside(d3, swapping, count, refuses);
        SavesKeepSafe(Unparked(d3, swapping, count, refuses).0, turn.saves);
      }
    }
  }

  lemma {:induction false} GroupsSafe(d: Disk, swapping: bool, count: nat, turns: seq<Turn>, refuses: nat -> bool)
    requires Ready(d, swapping, count) && (turns == [] ==> HomeIs(d.at, Aside))
    ensures var g := Groups(d, swapping, count, turns, refuses); Safe(g.disk) && (!g.threw ==> HomeIs(g.disk.at, Aside))
    decreases |turns|
  {
    if turns != [] {
      OneGroupSafe(d, swapping, count, turns[0], refuses);
      var one := OneGroup(d, swapping, count, turns[0], refuses);
      if !one.threw {
        GroupsSafe(one.disk, swapping, if turns[0].loadFails then count else count + 1, turns[1..], refuses);
      }
    }
  }

  lemma BegunReady(d: Disk, swapping: bool, refuses: nat -> bool)
    requires StartOk(d, swapping) && PathsOk(d, swapping)
    ensures Ready(Begun(d, swapping, refuses), swapping, 0)
  {
    RenameKeepsHome(d, Current, Aside, refuses, Current);
    var (d1, moved) := Renamed(d, Current, Aside, refuses);
    if swapping { RenameKeepsHome(d1, SwapIn, Current, refuses, if moved then Aside else Current); }
  }

  /** Nothing but groups is loaded and saved before the end. */
  lemma {:induction false} NothingWritten(d: Disk, swapping: bool, count: nat, turns: seq<Turn>, refuses: nat -> bool)
    ensures var g := Groups(d, swapping, count, turns, refuses).disk; g.notes == d.notes && g.marks == d.marks
    decreases |turns|
  {
    if turns != [] {
      var one := OneGroup(d, swapping, count, turns[0], refuses);
      OneWritesNothing(d, swapping, count, turns[0], refuses);
      if !one.threw {
        NothingWritten(one.disk, swapping, if turns[0].loadFails then count else count + 1, turns[1..], refuses);
      }
    }
  }

  lemma OneWritesNothing(d: Disk, swapping: bool, count: nat, turn: Turn, refuses: nat -> bool)
    ensures var o := OneGroup(d, swapping, count, turn, refuses).disk; o.notes == d.notes && o.marks == d.marks
  {
    var (d1, parked) := Parked(d, swapping, count, refuses);
    if parked {
      var (d2, back) := Renamed(d1, Aside, Current, refuses);
      if back {
        var (d3, aside) := Renamed(d2.(loaded := d2.loaded + [d2.at[Current]]), Current, Aside, refuses);
        if aside { SavesWriteNothing(Unparked(d3, swapping, count, refuses).0, turn.saves); }
      }
    }
  }

  lemma {:induction false} SavesWriteNothing(d: Disk, n: nat)
    ensures SavedTimes(d, n).notes == d.notes && SavedTimes(d, n).marks == d.marks
  {
    if n > 0 { SavesWriteNothing(d, n - 1); }
  }

  /** The end of a persistent run without an exception: the read-me of the original, the saves of the
      backbone, and the marker files, which are written elsewhere. */
  lemma Ending(d: Disk, saves: nat)
    requires Safe(d) && HomeIs(d.at, Aside) && d.notes == [] && d.marks == []
    ensures var saved := SavedTimes(Noted(Noted(d, Aside), Current), saves);
      && Safe(saved) && HomeIs(saved.at, Aside) && Original in saved.notes && saved.marks == []
      && Safe(Marked(saved)) && HomeIs(Marked(saved).at, Aside) && Marked(saved).notes == saved.notes
      && Original !in Marked(saved).marks
  {
    var noted := Noted(Noted(d, Aside), Current);
    assert noted.notes[0] == Original;
    assert Safe(noted) && HomeIs(noted.at, Aside);
    SavesKeepSafe(noted, saves);
    SavesWriteNothing(noted, saves);
    var saved := SavedTimes(noted, saves);
    assert HomeIs(Marked(saved).at, Aside);
  }

  /** If the paths are right, then whatever is refused and whatever fails: every run is safe; a persistent run
      without an exception leaves the original aside, with a line in its read-me file; and the marker
      files are written into the original if and only if the version is not persistent and the first
      rename, whose result nobody looks at, did not work. */
  lemma EveryRunSafe(d: Disk, swapping: bool, s: Setting)
    requires StartOk(d, swapping) && PathsOk(d, swapping) && s.turns != []
    ensures var f := Flattened(d, swapping, s);
      && Safe(f.disk)
      && (!f.threw && s.persistent ==> HomeIs(f.disk.at, Aside))
      && (Original in f.disk.notes <==> s.persistent && !f.threw)
      && (Original in f.disk.marks <==> !s.persistent && !Renamed(d, Current, Aside, s.refuses).1)
  {
    var d1 := Begun(d, swapping, s.refuses);
    BegunReady(d, swapping, s.refuses);
    if s.persistent {
      GroupsSafe(d1, swapping, 0, s.turns, s.refuses);
      NothingWritten(d1, swapping, 0, s.turns, s.refuses);
      var g := Groups(d1, swapping, 0, s.turns, s.refuses);
      if !g.threw { Ending(g.disk, s.backboneSaves); }
    } else {
      MarksAtOnce(d, swapping, s.refuses);
    }
  }

  /** A run whose version is not persistent writes its marker files and nothing else. */
  lemma MarksAtOnce(d: Disk, swapping: bool, refuses: nat -> bool)
    requires StartOk(d, swapping)
    ensures var f := Marked(Begun(d, swapping, refuses));
      Safe(f) && f.notes == [] && (Original in f.marks <==> !Renamed(d, Current, Aside, refuses).1)
  {
    RenameKeepsHome(d, Current, Aside, refuses, Current);
    var (d1, moved) := Renamed(d, Current, Aside, refuses);
    var home := if moved then Aside else Current;
    if swapping { RenameKeepsHome(d1, SwapIn, Current, refuses, home); }
    var d2 := Begun(d, swapping, refuses);
    assert HomeIs(d2.at, home) && HomeIs(Marked(d2).at, home);
    if !moved { assert Marked(d2).marks[0] == Original; }
  }

  /** The run that goes wrong: the first rename is refused, nothing else is. */
  const REFUSED_ONCE := Setting(true, [Turn(false, 0)], 0, true, k => k == 0)

  /** If they are not, the refusal of the first rename alone makes the tool load from another database. */
  lemma LoadsFromElsewhere(d: Disk, swapping: bool)
    requires StartOk(d, swapping) && !PathsOk(d, swapping)
    ensures var f := Flattened(d, swapping, REFUSED_ONCE); f.disk.loaded == [d.at[Aside]] && d.at[Aside] != Original
  {
    var refuses := REFUSED_ONCE.refuses;
    var d1 := Begun(d, swapping, refuses);
    assert d1 == d.(calls := 2);
    var (d2, parked) := Parked(d1, swapping, 0, refuses);
    assert parked && Aside in d2.at && Current !in d2.at;
    var (d3, back) := Renamed(d2, Aside, Current, refuses);
    assert back && d3.at[Current] == d.at[Aside];
    var (d4, aside) := Renamed(d3.(loaded := d3.loaded + [d3.at[Current]]), Current, Aside, refuses);
    assert aside && d4.loaded == [d.at[Aside]];
    var (d5, unparked) := Unparked(d4, swapping, 0, refuses);
    assert unparked && d5.loaded == d4.loaded;
    var one := OneGroup(d1, swapping, 0, REFUSED_ONCE.turns[0], refuses);
    assert one == Done(SavedTimes(d5, 0), false);
    assert REFUSED_ONCE.turns[1..] == [];
    assert Groups(d1, swapping, 0, REFUSED_ONCE.turns, refuses) == Done(d5, false);
  }

  /** The original is at one path, every group is loaded from it, and neither tables and groups nor marker
      files are written into it. */
  ghost predicate Kept(d: Disk) {
    Safe(d) && Original !in d.marks
  }

  /** The setting is persistent, or the first rename works. */
  predicate Usual(d: Disk, s: Setting) {
    s.persistent || Renamed(d, Current, Aside, s.refuses).1
  }

  /** The protocol keeps its promise in every usual run if and only if the path to move aside to is free or
      the directory to swap in is not empty; in an unusual run it never does. */
  lemma ProtocolExactly(d: Disk, swapping: bool)
    requires StartOk(d, swapping)
    ensures (forall s: Setting :: s.turns != [] && Usual(d, s) ==> Kept(Flattened(d, swapping, s).disk)) <==> PathsOk(d, swapping)
    ensures forall s: Setting :: !Usual(d, s) ==> !Kept(Flattened(d, swapping, s).disk)
  {
    if PathsOk(d, swapping) {
      forall s: Setting | s.turns != [] && Usual(d, s) ensures Kept(Flattened(d, swapping, s).disk) {
        EveryRunSafe(d, swapping, s);
      }
    } else {
      LoadsFromElsewhere(d, swapping);
      assert Usual(d, REFUSED_ONCE);
      var f := Flattened(d, swapping, REFUSED_ONCE);
      assert f.disk.loaded[0] != Original;
    }
    forall s: Setting | !Usual(d, s) ensures !Kept(Flattened(d, swapping, s).disk) {
      MarksAtOnce(d, swapping, s.refuses);
    }
  }

  // ---------------------------------------------------------------------------
  // What is loaded and saved, and where
  // ---------------------------------------------------------------------------

  /** The groups that load, and what is saved for them. */
  function Loads(turns: seq<Turn>): nat {
    if turns == [] then 0 else (if turns[0].loadFails then 0 else 1) + Loads(turns[1..])
  }

  function Saves(turns: seq<Turn>): nat {
    if turns == [] then 0 else (if turns[0].loadFails then 0 else turns[0].saves) + Saves(turns[1..])
  }

  /** The new database is x: to be found at the current path, except that without one to swap in it may
      have to be made yet. */
  ghost predicate NewIs(d: Disk, swapping: bool, x: Database) {
    && HomeIs(d.at, Aside)
    && (Current in d.at ==> d.at[Current] == x)
    && if swapping then Current in d.at else x == Fresh && (d.saved != [] ==> Current in d.at)
  }

  ghost predicate SavedTo(d: Disk, x: Database) {
    forall k :: 0 <= k < |d.saved| ==> d.saved[k] == x
  }

  lemma {:induction false} SavesCount(d: Disk, n: nat)
    ensures |SavedTimes(d, n).saved| == |d.saved| + n && SavedTimes(d, n).loaded == d.loaded
  {
    if n > 0 { SavesCount(d, n - 1); }
  }

  lemma {:induction false} SavesGoTo(d: Disk, n: nat, swapping: bool, x: Database)
    requires NewIs(d, swapping, x) && SavedTo(d, x)
    ensures NewIs(SavedTimes(d, n), swapping, x) && SavedTo(SavedTimes(d, n), x)
  {
    if n > 0 { SavesGoTo(d, n - 1, swapping, x); }
  }

  /** A group that does not throw is loaded once and saves what it has, and its saves go where the new
      database is. */
  lemma OneGroupCounts(d: Disk, swapping: bool, count: nat, turn: Turn, refuses: nat -> bool)
    requires !OneGroup(d, swapping, count, turn, refuses).threw
    ensures var o := OneGroup(d, swapping, count, turn, refuses).disk;
      && |o.loaded| == |d.loaded| + 1
      && |o.saved| == |d.saved| + if turn.loadFails then 0 else turn.saves
  {
    var d1 := Parked(d, swapping, count, refuses).0;
    var d2 := Renamed(d1, Aside, Current, refuses).0;
    var d3 := Renamed(d2.(loaded := d2.loaded + [d2.at[Current]]), Current, Aside, refuses).0;
    SavesCount(Unparked(d3, swapping, count, refuses).0, turn.saves);
  }

  lemma OneGroupSavesTo(d: Disk, swapping: bool, count: nat, turn: Turn, refuses: nat -> bool, x: Database)
    requires NewIs(d, swapping, x) && SavedTo(d, x) && Original !in d.empty && (!swapping && d.saved != [] ==> count > 0)
    requires !OneGroup(d, swapping, count, turn, refuses).threw
    ensures var o := OneGroup(d, swapping, count, turn, refuses).disk; NewIs(o, swapping, x) && SavedTo(o, x)
  {
    var d1 := Parked(d, swapping, count, refuses).0;
    var d2 := Renamed(d1, Aside, Current, refuses).0;
    var d3 := Renamed(d2.(loaded := d2.loaded + [d2.at[Current]]), Current, Aside, refuses).0;
    var d4 := Unparked(d3, swapping, count, refuses).0;
    BackAndAside(d, d1, d2, d3, swapping, count, refuses, x);
    assert NewIs(d4, swapping, x) && SavedTo(d4, x);
    SavesGoTo(d4, turn.saves, swapping, x);
  }

  /** Where everything is when the original is aside again. */
  lemma BackAndAside(d: Disk, d1: Disk, d2: Disk, d3: Disk, swapping: bool, count: nat, refuses: nat -> bool, x: Database)
    requires NewIs(d, swapping, x) && Original !in d.empty
    requires Parked(d, swapping, count, refuses) == (d1, true) && Renamed(d1, Aside, Current, refuses) == (d2, true)
    requires Renamed(d2.(loaded := d2.loaded + [d2.at[Current]]), Current, Aside, refuses) == (d3, true)
    ensures HomeIs(d3.at, Aside) && Current !in d3.at && d3.saved == d.saved
    ensures swapping ==> SwapIn in d3.at && d3.at[SwapIn] == x
    ensures !swapping && count > 0 ==> Holding in d3.at && d3.at[Holding] == x
  {
    assert HomeIs(d1.at, Aside);
    RenameKeepsHome(d1, Aside, Current, refuses, Aside);
  }

  lemma {:induction false} GroupsCount(d: Disk, swapping: bool, count: nat, turns: seq<Turn>, refuses: nat -> bool)
    requires !Groups(d, swapping, count, turns, refuses).threw
    ensures var g := Groups(d, swapping, count, turns, refuses).disk;
      |g.loaded| == |d.loaded| + |turns| && |g.saved| == |d.saved| + Saves(turns)
    decreases |turns|
  {
    if turns != [] {
      OneGroupCounts(d, swapping, count, turns[0], refuses);
      var one := OneGroup(d, swapping, count, turns[0], refuses);
      GroupsCount(one.disk, swapping, if turns[0].loadFails then count else count + 1, turns[1..], refuses);
    }
  }

  lemma {:induction false} GroupsSaveTo(d: Disk, swapping: bool, count: nat, turns: seq<Turn>, refuses: nat -> bool, x: Database)
    requires Safe(d) && NewIs(d, swapping, x) && SavedTo(d, x) && (!swapping && d.saved != [] ==> count > 0)
    requires !Groups(d, swapping, count, turns, refuses).threw
    ensures var g := Groups(d, swapping, count, turns, refuses).disk; NewIs(g, swapping, x) && SavedTo(g, x)
    decreases |turns|
  {
    if turns != [] {
      OneGroupSavesTo(d, swapping, count, turns[0], refuses, x);
      OneGroupCounts(d, swapping, count, turns[0], refuses);
      OneGroupSafe(d, swapping, count, turns[0], refuses);
      var one := OneGroup(d, swapping, count, turns[0], refuses);
      GroupsSaveTo(one.disk, swapping, if turns[0].loadFails then count else count + 1, turns[1..], refuses, x);
    }
  }

  /** If the run goes on after the renames at the start, they have worked. */
  lemma BegunNew(d: Disk, swapping: bool, turns: seq<Turn>, refuses: nat -> bool)
    requires StartOk(d, swapping) && PathsOk(d, swapping) && turns != []
    requires !Groups(Begun(d, swapping, refuses), swapping, 0, turns, refuses).threw
    ensures NewIs(Begun(d, swapping, refuses), swapping, if swapping then d.at[SwapIn] else Fresh)
  {
    var d1 := Begun(d, swapping, refuses);
    BegunReady(d, swapping, refuses);
    RenameKeepsHome(d, Current, Aside, refuses, Current);
    if HomeIs(d1.at, Current) {
      StillCurrent(d1, swapping, turns[0], refuses);
      assert false;
    }
    var (d0, moved) := Renamed(d, Current, Aside, refuses);
    if swapping { RenameKeepsHome(d0, SwapIn, Current, refuses, if moved then Aside else Current); }
    assert moved;
  }

  /** A persistent run without an exception loads every group once and saves everything that the groups that
      load, and the backbone, have to save: into the database that was swapped in or, without one, into a
      new one. The marker files go there too. */
  lemma EverythingSaved(d: Disk, swapping: bool, s: Setting)
    requires StartOk(d, swapping) && PathsOk(d, swapping) && s.turns != [] && s.persistent
    requires !Flattened(d, swapping, s).threw
    ensures var f := Flattened(d, swapping, s).disk;
      && |f.loaded| == |s.turns| && |f.saved| == Saves(s.turns) + s.backboneSaves
      && SavedTo(f, if swapping then d.at[SwapIn] else Fresh)
      && (s.marking && f.saved != [] ==>
            var x := if swapping then d.at[SwapIn] else Fresh; f.marks == [x, x, x, x])
  {
    var x := if swapping then d.at[SwapIn] else Fresh;
    var d1 := Begun(d, swapping, s.refuses);
    var g := Groups(d1, swapping, 0, s.turns, s.refuses);
    BegunReady(d, swapping, s.refuses);
    BegunNew(d, swapping, s.turns, s.refuses);
    GroupsCount(d1, swapping, 0, s.turns, s.refuses);
    GroupsSaveTo(d1, swapping, 0, s.turns, s.refuses, x);
    var noted := Noted(Noted(g.disk, Aside), Current);
    SavesCount(noted, s.backboneSaves);
    SavesGoTo(noted, s.backboneSaves, swapping, x);
    NothingWritten(d1, swapping, 0, s.turns, s.refuses);
    SavesWriteNothing(noted, s.backboneSaves);
  }

  // ---------------------------------------------------------------------------
  // When a run goes through
  // ---------------------------------------------------------------------------

  /** Between the groups of a run in which nothing is refused. */
  ghost predicate Lined(d: Disk, swapping: bool) {
    && HomeIs(d.at, Aside) && Original !in d.empty && Holding !in d.at
    && if swapping then Current in d.at && SwapIn !in d.at else (Current in d.at <==> d.saved != [])
  }

  ghost predicate NothingRefused(refuses: nat -> bool) {
    forall k: nat :: !refuses(k)
  }

  /** A group then goes through unless there is a new database to move out of the way that nothing has been
      saved into yet, so that it is not there. */
  lemma OneGroupGoes(d: Disk, swapping: bool, count: nat, turn: Turn, refuses: nat -> bool)
    requires Lined(d, swapping) && NothingRefused(refuses) && (!swapping && d.saved != [] ==> count > 0)
    ensures var o := OneGroup(d, swapping, count, turn, refuses);
      && (o.threw <==> !swapping && count > 0 && d.saved == [])
      && (!o.threw ==> Lined(o.disk, swapping))
  {
    var (d1, parked) := Parked(d, swapping, count, refuses);
    if parked {
      assert HomeIs(d1.at, Aside) && Current !in d1.at;
      var (d2, back) := Renamed(d1, Aside, Current, refuses);
      assert back && HomeIs(d2.at, Current) && Aside !in d2.at;
      var (d3, aside) := Renamed(d2.(loaded := d2.loaded + [d2.at[Current]]), Current, Aside, refuses);
      assert aside && HomeIs(d3.at, Aside) && d3.at == d1.at;
      var (d4, unparked) := Unparked(d3, swapping, count, refuses);
      assert unparked && Lined(d4, swapping);
      SavesKeepLined(d4, turn.saves, swapping);
    }
  }

  lemma {:induction false} SavesKeepLined(d: Disk, n: nat, swapping: bool)
    requires Lined(d, swapping)
    ensures Lined(SavedTimes(d, n), swapping)
  {
    if n > 0 { SavesKeepLined(d, n - 1, swapping); }
  }

  /** Some group comes when others have been loaded but nothing has been saved. */
  ghost predicate Barren(loaded: nat, saved: nat, turns: seq<Turn>) {
    exists j :: 0 <= j < |turns| && BarrenAt(loaded, saved, turns, j)
  }

  ghost predicate BarrenAt(loaded: nat, saved: nat, turns: seq<Turn>, j: nat)
    requires j < |turns|
  {
    loaded + Loads(turns[..j]) > 0 && saved + Saves(turns[..j]) == 0
  }

  lemma BarrenStep(loaded: nat, saved: nat, turns: seq<Turn>)
    requires turns != []
    ensures var t := turns[0];
      Barren(loaded, saved, turns) <==>
      (loaded > 0 && saved == 0)
      || Barren(loaded + if t.loadFails then 0 else 1, saved + if t.loadFails then 0 else t.saves, turns[1..])
  {
    var t, rest := turns[0], turns[1..];
    var l, v := loaded + if t.loadFails then 0 else 1, saved + if t.loadFails then 0 else t.saves;
    assert turns[..0] == [];
    forall j | 0 <= j < |rest| ensures BarrenAt(l, v, rest, j) <==> BarrenAt(loaded, saved, turns, j + 1) {
      assert turns[..j + 1][0] == t && turns[..j + 1][1..] == rest[..j];
    }
    if loaded > 0 && saved == 0 { assert BarrenAt(loaded, saved, turns, 0); }
    if Barren(l, v, rest) {
      var j :| 0 <= j < |rest| && BarrenAt(l, v, rest, j);
      assert BarrenAt(loaded, saved, turns, j + 1);
    }
    if Barren(loaded, saved, turns) {
      var j :| 0 <= j < |turns| && BarrenAt(loaded, saved, turns, j);
      if j > 0 { assert BarrenAt(l, v, rest, j - 1); }
    }
  }

  lemma {:induction false} GroupsGo(d: Disk, swapping: bool, count: nat, turns: seq<Turn>, refuses: nat -> bool)
    requires Lined(d, swapping) && NothingRefused(refuses) && (!swapping && d.saved != [] ==> count > 0)
    ensures Groups(d, swapping, count, turns, refuses).threw <==> !swapping && Barren(count, |d.saved|, turns)
    decreases |turns|
  {
    if turns != [] {
      OneGroupGoes(d, swapping, count, turns[0], refuses);
      BarrenStep(count, |d.saved|, turns);
      var one := OneGroup(d, swapping, count, turns[0], refuses);
      if !one.threw {
        OneGroupCounts(d, swapping, count, turns[0], refuses);
        GroupsGo(one.disk, swapping, if turns[0].loadFails then count else count + 1, turns[1..], refuses);
      }
    }
  }

  /** With the aside and holding paths free and nothing refused, a run throws if and only if there is no
      database to swap in and some group comes when others have been loaded but nothing has been saved. */
  lemma GoesThroughExactly(d: Disk, swapping: bool, s: Setting)
    requires StartOk(d, swapping) && Aside !in d.at && Holding !in d.at && NothingRefused(s.refuses)
    ensures Flattened(d, swapping, s).threw <==> s.persistent && !swapping && Barren(0, 0, s.turns)
  {
    var d1 := Begun(d, swapping, s.refuses);
    var (d0, moved) := Renamed(d, Current, Aside, s.refuses);
    assert moved && HomeIs(d0.at, Aside);
    assert Lined(d1, swapping);
    GroupsGo(d1, swapping, 0, s.turns, s.refuses);
  }

  // ---------------------------------------------------------------------------
  // The tool itself
  // ---------------------------------------------------------------------------

  class FileSystem {
    var at: map<Path, Database>
    var empty: set<Database>
    var calls: nat
    var loaded: seq<Database>
    var saved: seq<Database>
    var notes: seq<Database>
    var marks: seq<Database>

    constructor (at: map<Path, Database>, empty: set<Database>)
      ensures Now() == Disk(at, empty, 0, [], [], [], [])
    {
      this.at, this.empty, calls, loaded, saved, notes, marks := at, empty, 0, [], [], [], [];
    }

    function Now(): Disk
      reads this
    {
      Disk(at, empty, calls, loaded, saved, notes, marks)
    }

    method Rename(from: Path, to: Path, refuses: nat -> bool) returns (ok: bool)
      modifies this
      ensures (Now(), ok) == Renamed(old(Now()), from, to, refuses)
    {
      calls := calls + 1;
      ok := from in at && (to in at ==> at[to] in empty) && !refuses(calls - 1);
      if ok {
        at := (at - {from})[to := at[from]];
      }
    }

    method Save()
      modifies this
      ensures Now() == Saved(old(Now()))
    {
      if Current !in at { at := at[Current := Fresh]; }
      empty := empty - {at[Current]};
      saved := saved + [at[Current]];
    }

    method SaveSome(n: nat)
      modifies this
      ensures Now() == SavedTimes(old(Now()), n)
    {
      for i := 0 to n
        invariant Now() == SavedTimes(old(Now()), i)
      {
        Save();
      }
    }

    method FlattenOne(swapping: bool, count: nat, turn: Turn, refuses: nat -> bool) returns (threw: bool)
      modifies this
      ensures Done(Now(), threw) == OneGroup(old(Now()), swapping, count, turn, refuses)
    {
      var ok := true;
      if swapping {
        ok := Rename(Current, SwapIn, refuses);
      } else if count > 0 {
        ok := Rename(Current, Holding, refuses);
      }
      if !ok { return true; }
      ok := Rename(Aside, Current, refuses);
      if !ok { return true; }
      loaded := loaded + [at[Current]];
      ok := Rename(Current, Aside, refuses);
      if !ok { return true; }
      if swapping {
        ok := Rename(SwapIn, Current, refuses);
      } else if count > 0 {
        ok := Rename(Holding, Current, refuses);
      }
      if !ok { return true; }
      if !turn.loadFails {
        SaveSome(turn.saves);
      }
      return false;
    }

    method FlattenAll(swapping: bool, turns: seq<Turn>, refuses: nat -> bool) returns (threw: bool)
      modifies this
      ensures Done(Now(), threw) == Groups(old(Now()), swapping, 0, turns, refuses)
    {
      var count, i := 0, 0;
      assert turns[0..] == turns;
      while i < |turns|
        invariant 0 <= i <= |turns|
        invariant Groups(Now(), swapping, count, turns[i..], refuses) == Groups(old(Now()), swapping, 0, turns, refuses)
      {
        assert turns[i..][0] == turns[i] && turns[i..][1..] == turns[i + 1..];
        threw := FlattenOne(swapping, count, turns[i], refuses);
        if threw { return; }
        if !turns[i].loadFails { count := count + 1; }
        i := i + 1;
      }
      return false;
    }

    method Note(p: Path)
      modifies this
      ensures Now() == Noted(old(Now()), p)
    {
      if p in at {
        notes := notes + [at[p]];
        empty := empty - {at[p]};
      }
    }

    method MarkCurrent()
      modifies this
      ensures Now() == Marked(old(Now()))
    {
      if Current in at {
        var database := at[Current];
        empty := empty - {database};
        marks := marks + [database];    // fromConfigurationToTableConversion
        marks := marks + [database];    // fromConfigurationToTableConversion2
        marks := marks + [database];    // artdaqDaqTableConversion
        marks := marks + [database];    // fromIndexRebuild
        assert marks == old(marks) + [database, database, database, database];
      }
    }

    /** The whole run, for every setting and from every start. */
    method Flatten(swapping: bool, s: Setting) returns (threw: bool)
      modifies this
      ensures Done(Now(), threw) == Flattened(old(Now()), swapping, s)
      ensures StartOk(old(Now()), swapping) && PathsOk(old(Now()), swapping) && s.turns != [] ==>
        && Safe(Now()) && (!threw && s.persistent ==> HomeIs(at, Aside))
        && (Original in marks <==> !s.persistent && !Renamed(old(Now()), Current, Aside, s.refuses).1)
    {
      if StartOk(Now(), swapping) && PathsOk(Now(), swapping) && s.turns != [] { EveryRunSafe(Now(), swapping, s); }
      var moved := Rename(Current, Aside, s.refuses);         // result not looked at
      if swapping {
        var swapped := Rename(SwapIn, Current, s.refuses);    // result not looked at
      }
      if s.persistent {
        threw := FlattenAll(swapping, s.turns, s.refuses);
        if threw { return; }
        Note(Aside);
        Note(Current);
        SaveSome(s.backboneSaves);
        if !s.marking { return false; }
      }
      MarkCurrent();
      return false;
    }
  }
}
