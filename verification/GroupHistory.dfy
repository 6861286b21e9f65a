/** The history of a group action: three lines per record, never more than 200 records. */
module GroupHistory {
  import opened Common
  import opened Text
  import opened Numbers

  const MAX_RECORDS: nat := 200

  datatype Entry = Entry(name: string, key: nat, time: int, user: string)

  // ---------------------------------------------------------------------------
  // Printing
  // ---------------------------------------------------------------------------

  function IntText(i: int): string {
    if i < 0 then "-" + Decimal(-i) else Decimal(i)
  }

  /** The third line, as rewritten and as first written: without a user nothing follows the time. */
  function StampLine(e: Entry): string { Line(IntText(e.time) + " , " + e.user) }

  function NewStampLine(e: Entry): string {
    Line(IntText(e.time) + if e.user != "" then " , " + e.user else "")
  }

  function Rewritten(e: Entry): string {
    Line(e.name) + (Line(KeyText(e.key)) + StampLine(e))
  }

  function Fresh(e: Entry): string {
    Line(e.name) + (Line(KeyText(e.key)) + NewStampLine(e))
  }

  function RewrittenAll(entries: seq<Entry>): string {
    if entries == [] then "" else Rewritten(entries[0]) + RewrittenAll(entries[1..])
  }

  // ---------------------------------------------------------------------------
  // Loading
  // ---------------------------------------------------------------------------

  function WithoutNewline(line: string): string {
    if line != [] && line[|line| - 1] == '\n' then line[..|line| - 1] else line
  }

  /** `%d` into an unsigned key; `junk` is what the variable contained. */
  function ScanKey(line: string, junk: int): nat {
    (if ScanInt(line).None? then junk else ScanInt(line).value.0) % TWO_TO_32
  }

  function ScanTime(line: string, junk: int): int {
    if ScanInt(line).None? then junk else ScanInt(line).value.0
  }

  /** The word after the time and a comma; empty if there is none. */
  function ScanUser(line: string): string {
    if ScanInt(line).None? then ""
    else
      var t := SkipSpace(ScanInt(line).value.1);
      if t == [] || t[0] != ',' || ScanWord(t[1..]).None? then "" else ScanWord(t[1..]).value
  }

  /** One record, from its first line and what follows it. */
  function Round(line: string, rest: string, junk: int): (r: (Entry, string))
    ensures |r.1| <= |rest|
  {
    var (second, rest1) := NextLine(rest, WithoutNewline(line));
    var (third, rest2) := NextLine(rest1, second);
    (Entry(WithoutNewline(line), ScanKey(second, junk), ScanTime(third, junk), ScanUser(third)), rest2)
  }

  /** Every record in a file. */
  function Loaded(file: string, junk: int): seq<Entry>
    decreases |file|
  {
    if Fgets(file).None? then []
    else
      var (line, rest) := Fgets(file).value;
      assert |rest| < |file|;
      var (entry, rest') := Round(line, rest, junk);
      [entry] + Loaded(rest', junk)
  }

  /** The body of the loading loop. */
  method ReadRecord(line: string, rest: string, junk: int) returns (e: Entry, rest': string)
    ensures (e, rest') == Round(line, rest, junk)
  {
    var buffer := WithoutNewline(line);
    var name := buffer;
    var second := NextLine(rest, buffer);
    var third := NextLine(second.1, second.0);
    return Entry(name, ScanKey(second.0, junk), ScanTime(third.0, junk), ScanUser(third.0)), third.1;
  }

  lemma LoadedNext(file: string, junk: int)
    requires file != []
    ensures |Fgets(file).value.1| < |file|
    ensures var r := Round(Fgets(file).value.0, Fgets(file).value.1, junk); Loaded(file, junk) == [r.0] + Loaded(r.1, junk)
  {
  }

  /** With what is still to be read, the entries are those of the whole file. */
  ghost predicate OnTrack(entries: seq<Entry>, rest: string, file: string, junk: int) {
    entries + Loaded(rest, junk) == Loaded(file, junk)
  }

  lemma StaysOnTrack(entries: seq<Entry>, rest: string, file: string, junk: int, r: (Entry, string))
    requires OnTrack(entries, rest, file, junk) && rest != []
    requires r == Round(Fgets(rest).value.0, Fgets(rest).value.1, junk)
    ensures OnTrack(entries + [r.0], r.1, file, junk)
  {
    LoadedNext(rest, junk);
    assert (entries + [r.0]) + Loaded(r.1, junk) == entries + ([r.0] + Loaded(r.1, junk));
  }

  lemma OffTrack(entries: seq<Entry>, file: string, junk: int)
    ensures OnTrack([], file, file, junk)
    ensures OnTrack(entries, "", file, junk) ==> entries == Loaded(file, junk)
  {
  }

  method LoadGroupHistory(file: string, junk: int) returns (entries: seq<Entry>)
    ensures entries == Loaded(file, junk)
  {
    entries := [];
    var rest := file;
    OffTrack([], file, junk);
    while rest != []
      invariant OnTrack(entries, rest, file, junk)
      decreases |rest|
    {
      var next := Fgets(rest).value;
      var e, rest' := ReadRecord(next.0, next.1, junk);
      StaysOnTrack(entries, rest, file, junk, (e, rest'));
      LoadedNext(rest, junk);
      entries, rest := entries + [e], rest';
    }
    OffTrack(entries, file, junk);
  }

  // ---------------------------------------------------------------------------
  // Saving
  // ---------------------------------------------------------------------------

  /** The last n of a list. */
  function Last(entries: seq<Entry>, n: nat): (r: seq<Entry>)
    ensures |r| <= n
  {
    if |entries| <= n then entries else entries[|entries| - n..]
  }

  /** The file after appending: the latest records that still fit, rewritten, and the new one. */
  function Appended(file: string, e: Entry, junk: int): string {
    RewrittenAll(Last(Loaded(file, junk), MAX_RECORDS - 1)) + Fresh(e)
  }

  /** Removes the oldest record until there is room for one more. */
  method DropOldest(all: seq<Entry>) returns (records: seq<Entry>)
    ensures records == Last(all, MAX_RECORDS - 1)
  {
    records := all;
    while |records| >= MAX_RECORDS
      invariant |records| <= |all| && records == all[|all| - |records|..]
      invariant |all| >= MAX_RECORDS - 1 ==> |records| >= MAX_RECORDS - 1
      invariant |all| < MAX_RECORDS - 1 ==> records == all
    {
      records := records[1..];
    }
  }

  method Rewrite(records: seq<Entry>) returns (file: string)
    ensures file == RewrittenAll(records)
  {
    file := "";
    var i := 0;
    while i < |records|
      invariant 0 <= i <= |records| && file == RewrittenAll(records[..i])
    {
      RewriteStep(records, i);
      file := file + Rewritten(records[i]);
      i := i + 1;
    }
    assert records[..i] == records;
  }

  /** Appends to the history in a file, or overwrites the file. */
  method SaveGroupNameAndKey(file: string, e: Entry, append: bool, junk: int) returns (file': string)
    ensures file' == if append then Appended(file, e, junk) else Fresh(e)
  {
    if append {
      var records := LoadGroupHistory(file, junk);
      records := DropOldest(records);
      file' := Rewrite(records);
      file' := file' + Fresh(e);
    } else {
      file' := Fresh(e);
    }
  }

  lemma RewriteStep(records: seq<Entry>, i: nat)
    requires i < |records|
    ensures RewrittenAll(records[..i + 1]) == RewrittenAll(records[..i]) + Rewritten(records[i])
  {
    RewrittenNext(records[..i], records[i]);
    assert records[..i + 1] == records[..i] + [records[i]];
  }

  lemma {:induction false} RewrittenNext(entries: seq<Entry>, e: Entry)
    ensures RewrittenAll(entries + [e]) == RewrittenAll(entries) + Rewritten(e)
  {
    if entries == [] {
      assert [e][1..] == [];
    } else {
      RewrittenNext(entries[1..], e);
      assert (entries + [e])[1..] == entries[1..] + [e];
      Associates(Rewritten(entries[0]), RewrittenAll(entries[1..]), Rewritten(e));
    }
  }

  // ---------------------------------------------------------------------------
  // What is saved is what is loaded
  // ---------------------------------------------------------------------------

  /** A record as the program makes them: the key fits an int or is invalid, the user is one word. */
  ghost predicate EntryOk(e: Entry) {
    && '\n' !in e.name && |e.name| < 499
    && (e.key < 0x8000_0000 || e.key == INVALID)
    && 0 <= e.time < 0x8000_0000_0000_0000
    && (forall i :: 0 <= i < |e.user| ==> !IsSpace(e.user[i])) && |e.user| < 470
  }

  ghost predicate EntriesOk(entries: seq<Entry>) {
    forall i :: 0 <= i < |entries| ==> EntryOk(entries[i])
  }

  lemma KeyLine(key: nat, rest: string, junk: int)
    requires key < 0x8000_0000 || key == INVALID
    ensures Fgets(Line(KeyText(key)) + rest) == Some((Line(KeyText(key)), rest))
    ensures ScanKey(Line(KeyText(key)), junk) == key
  {
    var text := KeyText(key);
    if key == INVALID {
      ScanMinusOne();
      assert -1 % TWO_TO_32 == INVALID;
    } else {
      DecimalRoundTrip(key);
      ScanDecimal(key, "\n");
      assert key % TWO_TO_32 == key;
    }
    KeyIsShort(key);
    FgetsLine(text, rest);
  }

  lemma KeyIsShort(key: nat)
    requires key < TWO_TO_32
    ensures |KeyText(key)| <= 10 && '\n' !in KeyText(key)
  {
    DecimalRoundTrip(key);
    assert Pow10(10) == 10_000_000_000;
    DecimalLength(key, 10, Pow10(10));
  }

  /** A time line with whatever follows the time. */
  lemma TimeLine(e: Entry, after: string, rest: string, junk: int)
    requires EntryOk(e) && '\n' !in after && |after| <= |e.user| + 3 && (after != [] ==> !IsDigit(after[0]))
    ensures var line := Line(IntText(e.time) + after);
      && Fgets(line + rest) == Some((line, rest))
      && ScanInt(line) == Some((e.time, after + "\n"))
  {
    var text := IntText(e.time);
    DecimalRoundTrip(e.time);
    assert Pow10(9) == 1_000_000_000;
    assert Pow10(14) == 100_000_000_000_000;
    assert Pow10(19) == 10_000_000_000_000_000_000;
    DecimalLength(e.time, 19, Pow10(19));
    FgetsLine(text + after, rest);
    ScanDecimal(e.time, after + "\n");
    assert text + after + "\n" == text + (after + "\n");
  }

  lemma SkipOne(c: char, s: string)
    requires IsSpace(c)
    ensures SkipSpace([c] + s) == SkipSpace(s)
  {
    assert ([c] + s)[1..] == s;
  }

  lemma AfterTime(tail: string)
    ensures SkipSpace(" , " + tail) == ", " + tail
  {
    assert " , " + tail == [' '] + (", " + tail);
    SkipOne(' ', ", " + tail);
  }

  /** The word after the comma is the user, if there is one. */
  lemma UserAfter(user: string)
    requires forall i :: 0 <= i < |user| ==> !IsSpace(user[i])
    ensures ScanWord([' '] + (user + "\n")) == if user == "" then None else Some(user)
  {
    SkipOne(' ', user + "\n");
    if user == "" {
      assert user + "\n" == ['\n'] + "";
      SkipOne('\n', "");
    } else {
      ScanWordThen(user, "\n");
    }
  }

  /** One record, in either form, in front of any file. */
  lemma OneRecord(e: Entry, stamp: string, rest: string, junk: int)
    requires EntryOk(e) && (stamp == StampLine(e) || stamp == NewStampLine(e))
    ensures Loaded(Line(e.name) + (Line(KeyText(e.key)) + stamp) + rest, junk) == [e] + Loaded(rest, junk)
  {
    var after := if stamp == StampLine(e) then " , " + e.user else if e.user != "" then " , " + e.user else "";
    var tail := stamp + rest;
    var file := Line(e.name) + (Line(KeyText(e.key)) + tail);
    assert Line(e.name) + (Line(KeyText(e.key)) + stamp) + rest == file;
    FgetsLine(e.name, Line(KeyText(e.key)) + tail);
    KeyLine(e.key, tail, junk);
    StampRead(e, stamp, rest, junk);
    assert WithoutNewline(Line(e.name)) == e.name;
  }

  lemma StampRead(e: Entry, stamp: string, rest: string, junk: int)
    requires EntryOk(e) && (stamp == StampLine(e) || stamp == NewStampLine(e))
    ensures Fgets(stamp + rest) == Some((stamp, rest))
    ensures ScanTime(stamp, junk) == e.time && ScanUser(stamp) == e.user
  {
    if stamp == StampLine(e) || e.user != "" {
      UserRead(e, rest, junk);
    } else {
      assert IntText(e.time) + "" == IntText(e.time);
      TimeLine(e, "", rest, junk);
      assert "" + "\n" == "\n" && "\n"[1..] == "";
    }
  }

  lemma UserRead(e: Entry, rest: string, junk: int)
    requires EntryOk(e)
    ensures Fgets(StampLine(e) + rest) == Some((StampLine(e), rest))
    ensures ScanTime(StampLine(e), junk) == e.time && ScanUser(StampLine(e)) == e.user
  {
    var after := " , " + e.user;
    assert IntText(e.time) + " , " + e.user == IntText(e.time) + after;
    TimeLine(e, after, rest, junk);
    UserInRest(e.user);
  }

  /** What follows the time: a comma, and the user if there is one. */
  lemma UserInRest(user: string)
    requires forall i :: 0 <= i < |user| ==> !IsSpace(user[i])
    ensures var t := SkipSpace(" , " + user + "\n");
      t != [] && t[0] == ',' && ScanWord(t[1..]) == if user == "" then None else Some(user)
  {
    var tail := user + "\n";
    UserAfter(user);
    AfterTime(tail);
    assert " , " + user + "\n" == " , " + tail;
    assert (", " + tail)[1..] == [' '] + tail;
  }

  /** Print then parse is the identity, in front of any file. */
  lemma {:induction false} LoadRewritten(entries: seq<Entry>, rest: string, junk: int)
    requires EntriesOk(entries)
    ensures Loaded(RewrittenAll(entries) + rest, junk) == entries + Loaded(rest, junk)
    decreases |entries|
  {
    if entries == [] {
      assert RewrittenAll(entries) + rest == rest;
    } else {
      var e, more := entries[0], entries[1..];
      assert EntryOk(e);
      LoadRewritten(more, rest, junk);
      OneRewritten(e, RewrittenAll(more), rest, junk);
      Front(entries, Loaded(rest, junk));
    }
  }

  lemma OneRewritten(e: Entry, more: string, rest: string, junk: int)
    requires EntryOk(e)
    ensures Loaded((Rewritten(e) + more) + rest, junk) == [e] + Loaded(more + rest, junk)
  {
    OneRecord(e, StampLine(e), more + rest, junk);
    Associates(Rewritten(e), more, rest);
  }

  lemma Associates(a: string, b: string, c: string)
    ensures (a + b) + c == a + (b + c)
  {
  }

  lemma Front(entries: seq<Entry>, more: seq<Entry>)
    requires entries != []
    ensures [entries[0]] + (entries[1..] + more) == entries + more
  {
  }

  lemma OneFresh(e: Entry, junk: int)
    requires EntryOk(e)
    ensures Loaded(Fresh(e), junk) == [e]
  {
    OneRecord(e, NewStampLine(e), "", junk);
    assert Fresh(e) + "" == Fresh(e);
    assert Loaded("", junk) == [];
  }

  /** Appending adds one record and keeps at most 199 others, the latest ones. */
  lemma AppendKeepsLatest(file: string, e: Entry, junk: int)
    requires EntryOk(e) && EntriesOk(Loaded(file, junk))
    ensures Loaded(Appended(file, e, junk), junk) == Last(Loaded(file, junk), MAX_RECORDS - 1) + [e]
  {
    var all := Loaded(file, junk);
    var kept := Last(all, MAX_RECORDS - 1);
    LastOk(all, MAX_RECORDS - 1);
    LoadRewritten(kept, Fresh(e), junk);
    OneFresh(e, junk);
  }

  lemma LastOk(entries: seq<Entry>, n: nat)
    requires EntriesOk(entries)
    ensures EntriesOk(Last(entries, n))
  {
  }

  lemma LastOfLast(entries: seq<Entry>, n: nat)
    requires entries != [] && n > 0
    ensures Last(Last(entries[..|entries| - 1], n), n - 1) + [entries[|entries| - 1]] == Last(entries, n)
  {
  }

  /** A file after a number of appends, from an empty one. */
  function AppendedAll(entries: seq<Entry>, junk: int): string {
    if entries == [] then ""
    else Appended(AppendedAll(entries[..|entries| - 1], junk), entries[|entries| - 1], junk)
  }

  /** After any number of appends the file holds exactly the last 200 records, in order. */
  lemma HistoryIsLast(entries: seq<Entry>, junk: int)
    requires EntriesOk(entries)
    ensures Loaded(AppendedAll(entries, junk), junk) == if |entries| <= 200 then entries else entries[|entries| - 200..]
  {
    AppendsKeepLast(entries, junk);
  }

  lemma {:induction false} AppendsKeepLast(entries: seq<Entry>, junk: int)
    requires EntriesOk(entries)
    ensures Loaded(AppendedAll(entries, junk), junk) == Last(entries, MAX_RECORDS)
  {
    if entries != [] {
      var n := |entries| - 1;
      var before := entries[..n];
      AppendsKeepLast(before, junk);
      assert EntryOk(entries[n]);
      LastOk(before, MAX_RECORDS);
      AppendKeepsLatest(AppendedAll(before, junk), entries[n], junk);
      LastOfLast(entries, MAX_RECORDS);
    }
  }
}
