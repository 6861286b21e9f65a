/** The file of active groups: a line with the name and a line with the key for each group. */
module ActiveGroups {
  import opened Common
  import opened Text
  import opened Numbers

  /** A group name and its key; no group is the empty name with the invalid key. */
  datatype Slot = Slot(name: string, key: nat)

  /** A group the reader goes on to activate. */
  datatype Found = Found(name: string, key: int)

  // ---------------------------------------------------------------------------
  // Writing
  // ---------------------------------------------------------------------------

  function Written(slots: seq<Slot>): string {
    if slots == [] then "" else Line(slots[0].name) + Line(KeyText(slots[0].key)) + Written(slots[1..])
  }

  /** The writer: eight lines, in this order. */
  method WriteActiveGroups(context: Slot, backbone: Slot, configuration: Slot, iterate: Slot) returns (file: string)
    ensures file == Written([context, backbone, configuration, iterate])
  {
    file := "";
    file := file + Line(context.name);
    file := file + Line(KeyText(context.key));
    WrittenNext([], context);
    file := file + Line(backbone.name);
    file := file + Line(KeyText(backbone.key));
    WrittenNext([context], backbone);
    file := file + Line(configuration.name);
    file := file + Line(KeyText(configuration.key));
    WrittenNext([context, backbone], configuration);
    file := file + Line(iterate.name);
    file := file + Line(KeyText(iterate.key));
    WrittenNext([context, backbone, configuration], iterate);
    assert [context, backbone, configuration] + [iterate] == [context, backbone, configuration, iterate];
  }

  lemma {:induction false} WrittenNext(slots: seq<Slot>, s: Slot)
    ensures Written(slots + [s]) == Written(slots) + Line(s.name) + Line(KeyText(s.key))
  {
    var line, key := Line(s.name), Line(KeyText(s.key));
    if slots == [] {
      assert [s][1..] == [] && line + key + "" == "" + line + key;
    } else {
      WrittenNext(slots[1..], s);
      assert (slots + [s])[1..] == slots[1..] + [s];
      var front, more := Line(slots[0].name) + Line(KeyText(slots[0].key)), Written(slots[1..]);
      assert front + (more + line + key) == front + more + line + key;
    }
  }

  // ---------------------------------------------------------------------------
  // Reading
  // ---------------------------------------------------------------------------

  predicate IsNameChar(c: char) { IsLetter(c) || IsDigit(c) }

  /** The number at the start of a line, or zero. */
  function NumberCheck(line: string): int {
    var n := ScanInt(line);
    if n.None? then 0 else n.value.0
  }

  /** The next word of a line; the old text stays if there is none. */
  function ScanInto(line: string, stale: string): string {
    var w := ScanWord(line);
    if w.None? then stale else w.value
  }

  function NamePrefix(s: string): (r: string)
    ensures r <= s && (forall i :: 0 <= i < |r| ==> IsNameChar(s[i])) && (|r| < |s| ==> !IsNameChar(s[|r|]))
  {
    if s == [] || !IsNameChar(s[0]) then [] else [s[0]] + NamePrefix(s[1..])
  }

  function KeyPrefix(s: string): (r: string)
    ensures r <= s && (forall i :: 0 <= i < |r| ==> IsDigit(s[i])) && (|r| < |s| ==> !IsDigit(s[|r|]))
  {
    if s == [] || !IsDigit(s[0]) then [] else [s[0]] + KeyPrefix(s[1..])
  }

  /** What one round of the loop finds, the rest of the file, and the word buffer after it. */
  function Round(line: string, rest: string, buffer: string): (r: (seq<Found>, string, string))
    ensures |r.1| <= |rest|
  {
    if NumberCheck(line) != 0 then ([], rest, buffer)
    else
      var name := ScanInto(line, buffer);
      if NamePrefix(name) != name then ([], rest, NamePrefix(name))
      else
        var (second, rest') := NextLine(rest, line);
        var key := ScanInto(second, name);
        (if KeyPrefix(key) == key && |name| > 3 then [Found(name, ValueOf(key))] else [], rest', KeyPrefix(key))
  }

  /** All groups the reader finds, from a file and whatever its word buffer contains. */
  function Restored(file: string, buffer: string): seq<Found>
    decreases |file|
  {
    if Fgets(file).None? then []
    else
      FgetsAdvances(file);
      var (line, rest) := Fgets(file).value;
      var (found, rest', buffer') := Round(line, rest, buffer);
      found + Restored(rest', buffer')
  }

  /** Cuts the word at the first character that is not allowed. */
  method CutName(word: string) returns (cut: string, skip: bool)
    ensures cut == NamePrefix(word) && (skip <==> cut != word)
  {
    for j := 0 to |word|
      invariant NamePrefix(word) == word[..j] + NamePrefix(word[j..])
    {
      assert word[j..][0] == word[j] && word[j..][1..] == word[j + 1..];
      if !IsNameChar(word[j]) { return word[..j], true; }
    }
    return word, false;
  }

  method CutKey(word: string) returns (cut: string, skip: bool)
    ensures cut == KeyPrefix(word) && (skip <==> cut != word)
  {
    for j := 0 to |word|
      invariant KeyPrefix(word) == word[..j] + KeyPrefix(word[j..])
    {
      assert word[j..][0] == word[j] && word[j..][1..] == word[j + 1..];
      if !IsDigit(word[j]) { return word[..j], true; }
    }
    return word, false;
  }

  /** The body of the reading loop. */
  method ReadRound(line: string, rest: string, buffer: string) returns (found: seq<Found>, rest': string, word: string)
    ensures (found, rest', word) == Round(line, rest, buffer)
  {
    found, rest', word := [], rest, buffer;
    if NumberCheck(line) != 0 { return; }
    var skip;
    word, skip := CutName(ScanInto(line, word));
    if skip { return; }
    var name := word;
    var second := NextLine(rest, line);
    rest' := second.1;
    word, skip := CutKey(ScanInto(second.0, word));
    if |name| <= 3 || skip { return; }
    found := [Found(name, ValueOf(word))];
  }

  /** The reading loop; `buffer` is what the word buffer contains at the start. */
  method RestoreActiveGroups(file: string, buffer: string) returns (found: seq<Found>)
    ensures found == Restored(file, buffer)
  {
    found := [];
    var rest, word := file, buffer;
    while rest != []
      invariant found + Restored(rest, word) == Restored(file, buffer)
      decreases |rest|
    {
      FgetsAdvances(rest);
      var next := Fgets(rest).value;
      var more;
      more, rest, word := ReadRound(next.0, next.1, word);
      found := found + more;
    }
  }

  // ---------------------------------------------------------------------------
  // What is written is what is read
  // ---------------------------------------------------------------------------

  /** A name the program gives a group. */
  ghost predicate ValidName(name: string) {
    3 < |name| < 499 && IsLetter(name[0]) && forall i :: 0 <= i < |name| ==> IsNameChar(name[i])
  }

  /** A named group, with a key or not, or no group. */
  ghost predicate SlotOk(s: Slot) {
    s.key < TWO_TO_32 && (ValidName(s.name) || (s.name == "" && s.key == INVALID))
  }

  ghost predicate SlotsOk(slots: seq<Slot>) {
    forall i :: 0 <= i < |slots| ==> SlotOk(slots[i])
  }

  /** The groups there are: those with a name and a key. */
  function Groups(slots: seq<Slot>): seq<Found> {
    if slots == [] then []
    else
      (if slots[0].name != "" && slots[0].key != INVALID then [Found(slots[0].name, slots[0].key)] else [])
      + Groups(slots[1..])
  }

  lemma NotSpace(c: char)
    requires IsNameChar(c) || c == '-'
    ensures !IsSpace(c)
  {
  }

  lemma {:induction false} PrefixOfAll(s: string)
    ensures (forall i :: 0 <= i < |s| ==> IsNameChar(s[i])) ==> NamePrefix(s) == s
    ensures AllDigits(s) ==> KeyPrefix(s) == s
  {
    if s != [] { PrefixOfAll(s[1..]); }
  }

  /** A name line: no number, and its word is the name. */
  lemma NameLine(name: string, rest: string, buffer: string)
    requires ValidName(name)
    ensures Fgets(Line(name) + rest) == Some((Line(name), rest))
    ensures NumberCheck(Line(name)) == 0 && ScanInto(Line(name), buffer) == name && NamePrefix(name) == name
  {
    forall i | 0 <= i < |name| ensures !IsSpace(name[i]) && name[i] != '\n' { NotSpace(name[i]); }
    FgetsLine(name, rest);
    assert Line(name)[0] == name[0];
    ScanWordThen(name, "\n");
    PrefixOfAll(name);
  }

  /** A key line: its word is the key; the invalid key is a number and has no digit to start with. */
  lemma KeyLine(key: nat, rest: string, buffer: string)
    requires key < TWO_TO_32
    ensures Fgets(Line(KeyText(key)) + rest) == Some((Line(KeyText(key)), rest))
    ensures ScanInto(Line(KeyText(key)), buffer) == KeyText(key)
    ensures if key == INVALID then KeyPrefix(KeyText(key)) == "" && KeyText(key) != "" && NumberCheck(Line(KeyText(key))) == -1
            else KeyPrefix(KeyText(key)) == KeyText(key) && ValueOf(KeyText(key)) == key
  {
    var text := KeyText(key);
    if key == INVALID {
      MinusOne();
    } else {
      DecimalRoundTrip(key);
      assert Pow10(10) == 10_000_000_000;
      DecimalLength(key, 10, Pow10(10));
      PrefixOfAll(text);
    }
    forall i | 0 <= i < |text| ensures !IsSpace(text[i]) && text[i] != '\n' { NotSpace(text[i]); }
    FgetsLine(text, rest);
    ScanWordThen(text, "\n");
  }

  lemma MinusOne()
    ensures KeyText(INVALID) == "-1" && KeyPrefix("-1") == "" && NumberCheck("-1\n") == -1
  {
    ScanMinusOne();
  }

  lemma BlankLine(rest: string, buffer: string)
    ensures Fgets(Line("") + rest) == Some((Line(""), rest))
    ensures NumberCheck(Line("")) == 0 && ScanInto(Line(""), buffer) == buffer
  {
    FgetsLine("", rest);
    assert Line("") == "\n" && "\n"[1..] == "";
  }

  /** One slot: the reader finds its group, if it has one, and goes on with the rest. */
  lemma OneNamed(s: Slot, rest: string, buffer: string) returns (buffer': string)
    requires SlotOk(s) && s.name != ""
    ensures Restored(Line(s.name) + Line(KeyText(s.key)) + rest, buffer) ==
      (if s.key != INVALID then [Found(s.name, s.key)] else []) + Restored(rest, buffer')
  {
    var tail := Line(KeyText(s.key)) + rest;
    assert Line(s.name) + Line(KeyText(s.key)) + rest == Line(s.name) + tail;
    NameLine(s.name, tail, buffer);
    KeyLine(s.key, rest, s.name);
    buffer' := KeyPrefix(KeyText(s.key));
  }

  lemma OneEmpty(rest: string, buffer: string) returns (buffer': string)
    ensures Restored(Line("") + Line(KeyText(INVALID)) + rest, buffer) == Restored(rest, buffer')
  {
    var tail := Line(KeyText(INVALID)) + rest;
    assert Line("") + Line(KeyText(INVALID)) + rest == Line("") + tail;
    BlankLine(tail, buffer);
    KeyLine(INVALID, rest, buffer);
    if NamePrefix(buffer) != buffer {
      buffer' := NamePrefix(buffer);
    } else {
      buffer' := "";
    }
  }

  /** Whatever the word buffer contains, reading what was written gives exactly the groups, in order. */
  lemma {:induction false} RoundTrip(slots: seq<Slot>, buffer: string)
    requires SlotsOk(slots)
    ensures Restored(Written(slots), buffer) == Groups(slots)
    decreases |slots|
  {
    if slots != [] {
      assert SlotOk(slots[0]);
      var buffer';
      if slots[0].name == "" {
        buffer' := OneEmpty(Written(slots[1..]), buffer);
      } else {
        buffer' := OneNamed(slots[0], Written(slots[1..]), buffer);
      }
      RoundTrip(slots[1..], buffer');
    }
  }

  /** Why an empty name must come with the invalid key: with any other key the reader takes what the
      buffer contains for the name, and finds a group exactly if that passes for a name. */
  lemma EmptyNameWithKey(key: nat, buffer: string)
    requires key < INVALID
    ensures (Restored(Line("") + Line(KeyText(key)), buffer) != []) <==> NamePrefix(buffer) == buffer && |buffer| > 3
  {
    var tail := Line(KeyText(key));
    assert tail + "" == tail;
    BlankLine(tail, buffer);
    KeyLine(key, "", buffer);
    if NamePrefix(buffer) != buffer {
      var cut := NamePrefix(buffer);
      KeyAlone(key, cut);
    }
  }

  /** A key line where a name should be gives no group. */
  lemma KeyAlone(key: nat, buffer: string)
    requires key < INVALID
    ensures Restored(Line(KeyText(key)), buffer) == []
  {
    var line := Line(KeyText(key));
    assert line + "" == line;
    KeyLine(key, "", buffer);
    DecimalRoundTrip(key);
    ScanDecimal(key, "\n");
    if key == 0 {
      assert KeyText(key) == "0";
      PrefixOfAll(KeyText(key));
    }
  }
}
