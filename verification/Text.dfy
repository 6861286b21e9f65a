/** The C text primitives the program relies on: decimal printing, `%d` and `%s` of sscanf,
    and fgets with a bounded buffer. */
module Text {

  import opened Common

  predicate IsDigit(c: char) { '0' <= c <= '9' }

  predicate IsLetter(c: char) { 'a' <= c <= 'z' || 'A' <= c <= 'Z' }

  predicate IsSpace(c: char) { c == ' ' || ('\t' <= c <= '\r') }

  ghost predicate AllDigits(s: string) { forall i :: 0 <= i < |s| ==> IsDigit(s[i]) }

  // ---------------------------------------------------------------------------
  // Decimal numbers
  // ---------------------------------------------------------------------------

  function Decimal(n: nat): string {
    if n < 10 then [('0' as int + n) as char] else Decimal(n / 10) + [('0' as int + n % 10) as char]
  }

  /** The number a digit string denotes. */
  function ValueOf(s: string): int {
    if s == [] then 0 else 10 * ValueOf(s[..|s| - 1]) + (s[|s| - 1] as int - '0' as int)
  }

  lemma {:induction false} DecimalRoundTrip(n: nat)
    ensures ValueOf(Decimal(n)) == n && AllDigits(Decimal(n)) && |Decimal(n)| > 0
  {
    var c := ('0' as int + n % 10) as char;
    if n < 10 {
      assert Decimal(n)[..0] == [];
    } else {
      DecimalRoundTrip(n / 10);
      var d := Decimal(n);
      assert d[..|d| - 1] == Decimal(n / 10) && d[|d| - 1] == c;
    }
  }

  lemma DecimalInjective(m: nat, n: nat)
    requires Decimal(m) == Decimal(n)
    ensures m == n
  {
    DecimalRoundTrip(m);
    DecimalRoundTrip(n);
  }

  lemma {:induction false} DecimalLength(n: nat, digits: nat, bound: nat)
    requires digits >= 1 && bound == Pow10(digits) && n < bound
    ensures |Decimal(n)| <= digits
  {
    if n >= 10 { DecimalLength(n / 10, digits - 1, Pow10(digits - 1)); }
  }

  function Pow10(n: nat): nat { if n == 0 then 1 else 10 * Pow10(n - 1) }

  // ---------------------------------------------------------------------------
  // sscanf
  // ---------------------------------------------------------------------------

  function SkipSpace(s: string): string {
    if s != [] && IsSpace(s[0]) then SkipSpace(s[1..]) else s
  }

  function DigitCount(s: string): nat
    ensures DigitCount(s) <= |s|
  {
    if s != [] && IsDigit(s[0]) then 1 + DigitCount(s[1..]) else 0
  }

  function WordLength(s: string): nat
    ensures WordLength(s) <= |s|
  {
    if s != [] && !IsSpace(s[0]) then 1 + WordLength(s[1..]) else 0
  }

  /** `%d`: the number, if one is there, and the text after it. */
  function ScanInt(s: string): Option<(int, string)> {
    var t := SkipSpace(s);
    var negative := t != [] && t[0] == '-';
    var u := if t != [] && (t[0] == '-' || t[0] == '+') then t[1..] else t;
    var n := DigitCount(u);
    if n == 0 then None else Some((if negative then -ValueOf(u[..n]) else ValueOf(u[..n]), u[n..]))
  }

  /** `%s`: the next word, if there is one. */
  function ScanWord(s: string): Option<string> {
    var t := SkipSpace(s);
    if t == [] then None else Some(t[..WordLength(t)])
  }

  lemma {:induction false} DigitsThen(s: string, rest: string)
    requires AllDigits(s) && (rest == [] || !IsDigit(rest[0]))
    ensures DigitCount(s + rest) == |s|
  {
    if s == [] {
      assert s + rest == rest;
    } else {
      DigitsThen(s[1..], rest);
      assert (s + rest)[1..] == s[1..] + rest;
    }
  }

  lemma {:induction false} WordThen(s: string, rest: string)
    requires (forall i :: 0 <= i < |s| ==> !IsSpace(s[i])) && (rest == [] || IsSpace(rest[0]))
    ensures WordLength(s + rest) == |s|
  {
    if s == [] {
      assert s + rest == rest;
    } else {
      WordThen(s[1..], rest);
      assert (s + rest)[1..] == s[1..] + rest;
    }
  }

  lemma ScanDecimal(n: nat, rest: string)
    requires rest == [] || !IsDigit(rest[0])
    ensures ScanInt(Decimal(n) + rest) == Some((n, rest))
  {
    DecimalRoundTrip(n);
    var d := Decimal(n);
    var s := d + rest;
    assert s[0] == d[0] && IsDigit(d[0]);
    DigitsThen(d, rest);
    assert s[..|d|] == d && s[|d|..] == rest;
  }

  lemma ScanWordThen(s: string, rest: string)
    requires s != [] && (forall i :: 0 <= i < |s| ==> !IsSpace(s[i])) && (rest == [] || IsSpace(rest[0]))
    ensures ScanWord(s + rest) == Some(s)
  {
    WordThen(s, rest);
    assert (s + rest)[0] == s[0];
    assert (s + rest)[..|s|] == s;
  }

  // ---------------------------------------------------------------------------
  // fgets
  // ---------------------------------------------------------------------------

  /** How many characters a read of at most `limit` takes: up to and with the first newline. */
  function Taken(file: string, limit: nat): nat
    ensures Taken(file, limit) <= |file|
    decreases limit
  {
    if limit == 0 || file == [] then 0
    else if file[0] == '\n' then 1
    else 1 + Taken(file[1..], limit - 1)
  }

  /** fgets with a buffer of 500 characters; None at the end of the file. */
  function Fgets(file: string): Option<(string, string)> {
    if file == [] then None
    else
      var n := Taken(file, 499);
      Some((file[..n], file[n..]))
  }

  lemma {:induction false} TakenLine(line: string, rest: string, limit: nat)
    requires '\n' !in line && |line| < limit
    ensures Taken(line + "\n" + rest, limit) == |line| + 1
    decreases limit
  {
    var s := line + "\n" + rest;
    if line == [] {
      assert s[0] == '\n';
    } else {
      assert s[0] == line[0] && s[1..] == line[1..] + "\n" + rest;
      TakenLine(line[1..], rest, limit - 1);
    }
  }

  /** A line short enough for the buffer is read back whole. */
  lemma FgetsLine(line: string, rest: string)
    requires '\n' !in line && |line| < 499
    ensures Fgets(line + "\n" + rest) == Some((line + "\n", rest))
  {
    TakenLine(line, rest, 499);
    var s := line + "\n" + rest;
    assert s[..|line| + 1] == line + "\n" && s[|line| + 1..] == rest;
  }

  function Line(s: string): string { s + "\n" }

  /** An unchecked fgets: the next line, or the old one still in the buffer at the end of the file. */
  function NextLine(rest: string, line: string): (r: (string, string))
    ensures |r.1| <= |rest|
  {
    if Fgets(rest).None? then (line, rest) else Fgets(rest).value
  }

  lemma FgetsAdvances(file: string)
    ensures Fgets(file).Some? ==> |Fgets(file).value.1| < |file|
  {
  }

  lemma ScanMinusOne()
    ensures ScanInt("-1\n").Some? && ScanInt("-1\n").value.0 == -1
  {
    var line := "-1\n";
    assert SkipSpace(line) == line && line[1..] == "1\n";
    assert "1\n"[1..] == "\n";
    assert DigitCount("1\n") == 1;
    assert "1\n"[..1] == "1" && "1"[..0] == "";
    assert ValueOf("1") == 1;
  }
}
