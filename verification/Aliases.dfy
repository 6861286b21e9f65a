/** Rewriting the two alias tables of the backbone in place: every row whose target was
    migrated gets the new number, every other row is deleted. */
module Aliases {
  import opened Common
  import opened Numbers
  import opened Flatten

  /** Which of the two number columns is rewritten. */
  datatype Kind = Keys | Versions

  function TextOf(kind: Kind, n: nat): string {
    match kind
    case Keys => KeyText(n)
    case Versions => VersionText(n)
  }

  /** A row: the name column, the number column, and the columns nobody touches. */
  datatype Row = Row(name: string, number: string, others: seq<string>)

  datatype Renaming = Renaming(from: Entry, to: nat)

  // ---------------------------------------------------------------------------
  // What the loop is meant to do
  // ---------------------------------------------------------------------------

  predicate Matches(row: Row, e: Entry, kind: Kind) {
    row.name == e.name && row.number == TextOf(kind, e.number)
  }

  /** The new number of the first renaming that matches. */
  function Target(row: Row, renamings: seq<Renaming>, kind: Kind): Option<nat> {
    if renamings == [] then None
    else if Matches(row, renamings[0].from, kind) then Some(renamings[0].to)
    else Target(row, renamings[1..], kind)
  }

  /** The rows in order, each renamed once or left out. */
  function Rewritten(rows: seq<Row>, renamings: seq<Renaming>, kind: Kind): seq<Row> {
    if rows == [] then []
    else
      var n := |rows| - 1;
      Rewritten(rows[..n], renamings, kind) +
      match Target(rows[n], renamings, kind)
      case None => []
      case Some(k) => [rows[n].(number := TextOf(kind, k))]
  }

  // ---------------------------------------------------------------------------
  // The loop
  // ---------------------------------------------------------------------------

  class AliasView {
    var rows: seq<Row>

    constructor (rows: seq<Row>)
      ensures this.rows == rows
    {
      this.rows := rows;
    }

    /** The search through the renamings for one row. */
    method Find(row: nat, renamings: seq<Renaming>, kind: Kind) returns (found: Option<nat>)
      requires row < |rows|
      ensures found == Target(rows[row], renamings, kind)
    {
      var i := 0;
      while i < |renamings|
        invariant 0 <= i <= |renamings|
        invariant Target(rows[row], renamings[i..], kind) == Target(rows[row], renamings, kind)
      {
        assert renamings[i..][0] == renamings[i] && renamings[i..][1..] == renamings[i + 1..];
        if Matches(rows[row], renamings[i].from, kind) { return Some(renamings[i].to); }
        i := i + 1;
      }
      found := None;
    }

    /** The body of the loop with its `++row`: rename the row, or `deleteRow(row--)` with the
        32-bit wrap-around at row 0. */
    method RewriteRow(row: nat, renamings: seq<Renaming>, kind: Kind) returns (next: nat)
      requires row < |rows| < 0x8000_0000
      modifies this
      ensures match Target(old(rows)[row], renamings, kind)
        case None => next == row && rows == old(rows)[..row] + old(rows)[row + 1..]
        case Some(n) => next == row + 1 && rows == old(rows)[row := old(rows)[row].(number := TextOf(kind, n))]
    {
      var found := Find(row, renamings, kind);
      next := row;
      if found.Some? {
        rows := rows[row := rows[row].(number := TextOf(kind, found.value))];
      } else {
        rows := rows[..row] + rows[row + 1..];
        next := if next == 0 then TWO_TO_32 - 1 else next - 1;
      }
      next := if next == TWO_TO_32 - 1 then 0 else next + 1;
    }

    method Rewrite(renamings: seq<Renaming>, kind: Kind)
      requires |rows| < 0x8000_0000
      modifies this
      ensures rows == Rewritten(old(rows), renamings, kind)
    {
      ghost var before := rows;
      var row: nat := 0;
      ghost var k: nat := 0;
      while row < |rows|
        invariant |rows| < 0x8000_0000 && Progress(before, k, rows, row, renamings, kind)
        decreases |before| - k
      {
        ProgressStep(before, k, rows, row, renamings, kind);
        row := RewriteRow(row, renamings, kind);
        k := k + 1;
      }
      ProgressDone(before, k, rows, row, renamings, kind);
    }
  }

  /** The first k of the rows are done; the rest are as they were. */
  ghost predicate Progress(before: seq<Row>, k: nat, rows: seq<Row>, row: nat, renamings: seq<Renaming>, kind: Kind) {
    && k <= |before| && row == |Rewritten(before[..k], renamings, kind)|
    && rows == Rewritten(before[..k], renamings, kind) + before[k..]
  }

  lemma ProgressStep(before: seq<Row>, k: nat, rows: seq<Row>, row: nat, renamings: seq<Renaming>, kind: Kind)
    requires Progress(before, k, rows, row, renamings, kind) && row < |rows|
    ensures k < |before| && match Target(rows[row], renamings, kind)
      case None => Progress(before, k + 1, rows[..row] + rows[row + 1..], row, renamings, kind)
      case Some(n) => Progress(before, k + 1, rows[row := rows[row].(number := TextOf(kind, n))], row + 1, renamings, kind)
  {
    var head := Rewritten(before[..k], renamings, kind);
    assert rows[row] == before[k];
    RewrittenNext(before, k, renamings, kind);
    assert before[k..][1..] == before[k + 1..];
    match Target(before[k], renamings, kind)
    case None =>
      Deleted(head, before[k..]);
      assert head + [] == head;
    case Some(n) => Replaced(head, before[k..], before[k].(number := TextOf(kind, n)));
  }

  lemma ProgressDone(before: seq<Row>, k: nat, rows: seq<Row>, row: nat, renamings: seq<Renaming>, kind: Kind)
    requires Progress(before, k, rows, row, renamings, kind) && row >= |rows|
    ensures rows == Rewritten(before, renamings, kind)
  {
    assert k == |before| && before[..k] == before;
  }

  lemma RewrittenNext(rows: seq<Row>, k: nat, renamings: seq<Renaming>, kind: Kind)
    requires k < |rows|
    ensures Rewritten(rows[..k + 1], renamings, kind) == Rewritten(rows[..k], renamings, kind) +
      match Target(rows[k], renamings, kind)
      case None => []
      case Some(n) => [rows[k].(number := TextOf(kind, n))]
  {
    assert rows[..k + 1][..k] == rows[..k];
  }

  lemma Replaced(head: seq<Row>, tail: seq<Row>, row: Row)
    requires tail != []
    ensures (head + tail)[|head| := row] == (head + [row]) + tail[1..]
  {
  }

  lemma Deleted(head: seq<Row>, tail: seq<Row>)
    requires tail != []
    ensures (head + tail)[..|head|] + (head + tail)[|head| + 1..] == head + tail[1..]
  {
  }

  // ---------------------------------------------------------------------------
  // What the rewritten rows mean
  // ---------------------------------------------------------------------------

  /** How many of the rows survive. */
  function Survivors(rows: seq<Row>, renamings: seq<Renaming>, kind: Kind): nat {
    if rows == [] then 0
    else Survivors(rows[..|rows| - 1], renamings, kind) +
         if Target(rows[|rows| - 1], renamings, kind).Some? then 1 else 0
  }

  /** Row i, if its target was migrated, becomes the row after the survivors before it: the
      order is kept, nothing else is there, and only the number column differs. */
  lemma {:induction false} RewrittenRow(rows: seq<Row>, renamings: seq<Renaming>, kind: Kind, i: nat)
    requires i < |rows|
    ensures |Rewritten(rows, renamings, kind)| == Survivors(rows, renamings, kind)
    ensures Survivors(rows[..i], renamings, kind) <= Survivors(rows, renamings, kind)
    ensures Target(rows[i], renamings, kind).Some? ==>
      && Survivors(rows[..i], renamings, kind) < Survivors(rows, renamings, kind)
      && Rewritten(rows, renamings, kind)[Survivors(rows[..i], renamings, kind)]
           == rows[i].(number := TextOf(kind, Target(rows[i], renamings, kind).value))
  {
    var n := |rows| - 1;
    RewrittenCount(rows, renamings, kind);
    RewrittenCount(rows[..n], renamings, kind);
    if i < n {
      RewrittenRow(rows[..n], renamings, kind, i);
      assert rows[..n][..i] == rows[..i];
      RewrittenPrefix(rows, renamings, kind);
    }
  }

  /** What the earlier rows become comes first. */
  lemma RewrittenPrefix(rows: seq<Row>, renamings: seq<Renaming>, kind: Kind)
    requires rows != []
    ensures Rewritten(rows[..|rows| - 1], renamings, kind) <= Rewritten(rows, renamings, kind)
  {
  }

  lemma {:induction false} RewrittenCount(rows: seq<Row>, renamings: seq<Renaming>, kind: Kind)
    ensures |Rewritten(rows, renamings, kind)| == Survivors(rows, renamings, kind)
  {
    if rows != [] { RewrittenCount(rows[..|rows| - 1], renamings, kind); }
  }

  /** Every rewritten row comes from an original row. */
  lemma {:induction false} RewrittenFrom(rows: seq<Row>, renamings: seq<Renaming>, kind: Kind, p: nat)
    returns (i: nat)
    requires p < |Rewritten(rows, renamings, kind)|
    ensures i < |rows| && Target(rows[i], renamings, kind).Some? && Survivors(rows[..i], renamings, kind) == p
    ensures Rewritten(rows, renamings, kind)[p] == rows[i].(number := TextOf(kind, Target(rows[i], renamings, kind).value))
  {
    var n := |rows| - 1;
    RewrittenCount(rows[..n], renamings, kind);
    if p < |Rewritten(rows[..n], renamings, kind)| {
      i := RewrittenFrom(rows[..n], renamings, kind, p);
      assert rows[..n][..i] == rows[..i];
    } else {
      i := n;
    }
  }

  /** The list walks a map of renamings. */
  ghost predicate Lists(renamings: seq<Renaming>, m: map<Entry, nat>) {
    && (forall i :: 0 <= i < |renamings| ==> renamings[i].from in m && m[renamings[i].from] == renamings[i].to)
    && (forall e :: e in m ==> exists i :: 0 <= i < |renamings| && renamings[i].from == e)
  }

  ghost predicate InjectiveText(kind: Kind, m: map<Entry, nat>) {
    forall d, e :: d in m && e in m && TextOf(kind, d.number) == TextOf(kind, e.number) ==> d.number == e.number
  }

  lemma {:induction false} TargetFound(row: Row, renamings: seq<Renaming>, kind: Kind)
    ensures match Target(row, renamings, kind)
      case None => forall i :: 0 <= i < |renamings| ==> !Matches(row, renamings[i].from, kind)
      case Some(n) => exists i :: 0 <= i < |renamings| && Matches(row, renamings[i].from, kind) && renamings[i].to == n
  {
    if renamings != [] {
      TargetFound(row, renamings[1..], kind);
      if Target(row, renamings[1..], kind).Some? && !Matches(row, renamings[0].from, kind) {
        var n := Target(row, renamings[1..], kind).value;
        var i :| 0 <= i < |renamings[1..]| && Matches(row, renamings[1..][i].from, kind) && renamings[1..][i].to == n;
        assert renamings[i + 1] == renamings[1..][i];
      }
    }
  }

  /** A row has a target exactly when it names a renamed entry, and then that entry is the only
      one: the order of the search does not matter. */
  lemma TargetIsTheEntry(row: Row, renamings: seq<Renaming>, kind: Kind, m: map<Entry, nat>, e: Entry)
    requires Lists(renamings, m) && InjectiveText(kind, m) && e in m && Matches(row, e, kind)
    ensures Target(row, renamings, kind) == Some(m[e])
  {
    TargetFound(row, renamings, kind);
    var i :| 0 <= i < |renamings| && renamings[i].from == e;
    assert Target(row, renamings, kind).Some?;
    var k :| 0 <= k < |renamings| && Matches(row, renamings[k].from, kind)
             && renamings[k].to == Target(row, renamings, kind).value;
    assert renamings[k].from == e;
  }

  // ---------------------------------------------------------------------------
  // Aliases after flattening
  // ---------------------------------------------------------------------------

  /** The row that row i becomes. */
  ghost predicate Becomes(rows: seq<Row>, renamings: seq<Renaming>, kind: Kind, i: nat, n: nat)
    requires i < |rows|
  {
    && Survivors(rows[..i], renamings, kind) < |Rewritten(rows, renamings, kind)|
    && Rewritten(rows, renamings, kind)[Survivors(rows[..i], renamings, kind)]
         == Row(rows[i].name, if kind == Keys then KeyText(n) else VersionText(n), rows[i].others)
  }

  /** A row that names e survives exactly if e was renamed, and then names what e became. */
  lemma RowOf(rows: seq<Row>, renamings: seq<Renaming>, kind: Kind, m: map<Entry, nat>, i: nat, e: Entry)
    requires Lists(renamings, m) && (forall d :: d in m ==> d.number < TWO_TO_32)
    requires i < |rows| && e.number < TWO_TO_32 && Matches(rows[i], e, kind)
    ensures Target(rows[i], renamings, kind).Some? <==> e in m
    ensures e in m ==> Becomes(rows, renamings, kind, i, m[e])
  {
    RewrittenRow(rows, renamings, kind, i);
    if e in m {
      TextsAreInjective(m);
      TargetIsTheEntry(rows[i], renamings, kind, m, e);
    } else {
      NoTarget(rows[i], renamings, kind, m, e);
    }
  }

  /** After any run of the tool, a row of the group aliases that names g survives exactly if g was migrated,
      and then names the new key of g. The new group has the meaning of g if and only if every member was
      right when its turn came. */
  lemma AliasAfterRun(o: Original, w: World, tables: map<Entry, Content>, stored: map<Entry, map<string, nat>>, flat: nat,
                      groups: seq<Entry>, loads: seq<Load>, rows: seq<Row>, renamings: seq<Renaming>, i: nat, g: Entry)
    requires RunOk(groups, loads)
    requires forall k :: 0 <= k < |groups| ==> groups[k].number < TWO_TO_32
    requires Lists(renamings, Turns(w, Start(tables, stored, flat), groups, loads).book.keys)
    requires i < |rows| && g.number < TWO_TO_32 && rows[i].name == g.name && rows[i].number == KeyText(g.number)
    ensures var b := Turns(w, Start(tables, stored, flat), groups, loads).book;
      && (Target(rows[i], renamings, Keys).Some? <==> g in b.keys)
      && (g in b.keys ==> Becomes(rows, renamings, Keys, i, b.keys[g]))
    ensures var s := Start(tables, stored, flat); var b := Turns(w, s, groups, loads).book;
      forall k :: 0 <= k < |groups| && groups[k] == g && g in b.keys && ListsRight(o, g, loads[k]) ==>
        (SameMeaning(o, b, g) <==> RightMembers(o, Before(w, s, groups, loads, k), loads[k]))
  {
    var b := Turns(w, Start(tables, stored, flat), groups, loads).book;
    EveryRunAccounted(w, tables, stored, flat, groups, loads);
    RowOf(rows, renamings, Keys, b.keys, i, g);
    forall k | 0 <= k < |groups| && groups[k] == g && g in b.keys && ListsRight(o, g, loads[k])
      ensures SameMeaning(o, b, g) <==> RightMembers(o, Before(w, Start(tables, stored, flat), groups, loads, k), loads[k])
    {
      GroupExactly(o, w, tables, stored, flat, groups, loads, k);
    }
  }

  /** Versions have 32 bits. */
  ghost predicate VersionsFit(loads: seq<Load>) {
    forall k, e :: 0 <= k < |loads| && loads[k].Loaded? && e in loads[k].members ==> e.number < TWO_TO_32
  }

  /** After any run of the tool, a row of the version aliases that names table e survives exactly if e was
      renamed, and then names its new version. That has the content of e if and only if the load of the
      turn that renamed it held the right view. */
  lemma VersionAliasAfterRun(o: Original, w: World, tables: map<Entry, Content>, stored: map<Entry, map<string, nat>>, flat: nat,
                             groups: seq<Entry>, loads: seq<Load>, rows: seq<Row>, renamings: seq<Renaming>, i: nat, e: Entry)
    requires RunOk(groups, loads) && VersionsFit(loads)
    requires Lists(renamings, Turns(w, Start(tables, stored, flat), groups, loads).book.modified)
    requires i < |rows| && e.number < TWO_TO_32 && rows[i].name == e.name && rows[i].number == VersionText(e.number)
    ensures var b := Turns(w, Start(tables, stored, flat), groups, loads).book;
      && (Target(rows[i], renamings, Versions).Some? <==> e in b.modified)
      && (e in b.modified ==> Becomes(rows, renamings, Versions, i, b.modified[e]))
    ensures var s := Start(tables, stored, flat); var b := Turns(w, s, groups, loads).book;
      e in b.modified ==> exists k :: 0 <= k < |groups| && MadeIn(w, s, groups, loads, k, e)
                                      && (SameContent(o, b, e) <==> RightView(o, loads[k], e))
  {
    var s := Start(tables, stored, flat);
    var b := Turns(w, s, groups, loads).book;
    EveryRunAccounted(w, tables, stored, flat, groups, loads);
    forall d | d in b.modified ensures d.number < TWO_TO_32 {
      assert IntroducedBySome(b, d, loads);
      var k :| 0 <= k < |loads| && Introduced(b, d, loads[k]);
    }
    RowOf(rows, renamings, Versions, b.modified, i, e);
    if e in b.modified {
      var k := MadeInSome(w, s, groups, loads, e);
      RenamingExactly(o, w, tables, stored, flat, groups, loads, k, e);
    }
  }

  /** A row whose entry was not renamed matches no other entry either. */
  lemma NoTarget(row: Row, renamings: seq<Renaming>, kind: Kind, m: map<Entry, nat>, e: Entry)
    requires Lists(renamings, m) && e !in m && e.number < TWO_TO_32 && Matches(row, e, kind)
    requires forall d :: d in m ==> d.number < TWO_TO_32
    ensures Target(row, renamings, kind).None?
  {
    TargetFound(row, renamings, kind);
    forall k | 0 <= k < |renamings| ensures !Matches(row, renamings[k].from, kind) {
      if Matches(row, renamings[k].from, kind) {
        SameText(kind, renamings[k].from.number, e.number);
      }
    }
  }

  lemma SameText(kind: Kind, a: nat, b: nat)
    requires a < TWO_TO_32 && b < TWO_TO_32 && TextOf(kind, a) == TextOf(kind, b)
    ensures a == b
  {
    match kind
    case Keys => KeyTextInjective(a, b);
    case Versions => VersionTextInjective(a, b);
  }

  /** Both texts are injective on the numbers that can occur, so rows never have two targets. */
  lemma TextsAreInjective(m: map<Entry, nat>)
    requires forall e :: e in m ==> e.number < TWO_TO_32
    ensures InjectiveText(Keys, m) && InjectiveText(Versions, m)
  {
    forall d, e | d in m && e in m && KeyText(d.number) == KeyText(e.number) ensures d.number == e.number {
      KeyTextInjective(d.number, e.number);
    }
    forall d, e | d in m && e in m && VersionText(d.number) == VersionText(e.number) ensures d.number == e.number {
      VersionTextInjective(d.number, e.number);
    }
  }
}
