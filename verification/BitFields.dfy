/** Bit fields in machine words and in byte strings.

    A word is the sequence of its bits, least significant first, of any width; the program has
    every operation for 32 and for 64 bits. */
module BitFields {

  type Bits = seq<bool>

  function Pow2(n: nat): (r: nat)
    ensures r > 0
  {
    if n == 0 then 1 else 2 * Pow2(n - 1)
  }

  /** The number a word stands for. */
  function Value(b: Bits): nat {
    if b == [] then 0 else (if b[0] then 1 else 0) + 2 * Value(b[1..])
  }

  /** The lowest `width` bits of a number. */
  function OfValue(n: nat, width: nat): (b: Bits)
    ensures |b| == width
  {
    if width == 0 then [] else [n % 2 == 1] + OfValue(n / 2, width - 1)
  }

  function Zero(width: nat): (b: Bits)
    ensures |b| == width && forall k :: 0 <= k < width ==> !b[k]
  {
    seq(width, _ => false)
  }

  /** Shifts inside the width. */
  function ShiftLeft(b: Bits, n: nat): (r: Bits)
    requires n < |b|
    ensures |r| == |b| && forall k :: 0 <= k < |b| ==> r[k] == (k >= n && b[k - n])
  {
    seq(|b|, k requires 0 <= k < |b| => k >= n && b[k - n])
  }

  /** A single bit as a word, shifted into place. */
  function OneBit(bit: bool, k: nat, width: nat): (r: Bits)
    requires k < width
    ensures |r| == width && forall i :: 0 <= i < width ==> r[i] == (i == k && bit)
  {
    seq(width, i => i == k && bit)
  }

  function Or(a: Bits, b: Bits): (r: Bits)
    requires |a| == |b|
    ensures |r| == |a| && forall k :: 0 <= k < |a| ==> r[k] == (a[k] || b[k])
  {
    seq(|a|, k requires 0 <= k < |a| => a[k] || b[k])
  }

  /** Addition as the machine does it: carries, and drops what exceeds the width. */
  function Add(a: Bits, b: Bits): (r: Bits)
    requires |a| == |b|
    ensures |r| == |a|
  {
    OfValue(Value(a) + Value(b), |a|)
  }

  // ---------------------------------------------------------------------------
  // Numbers and bits
  // ---------------------------------------------------------------------------

  lemma {:induction false} ValueRoundTrip(b: Bits)
    ensures OfValue(Value(b), |b|) == b
  {
    if b != [] { ValueRoundTrip(b[1..]); }
  }

  ghost predicate Apart(a: Bits, b: Bits) {
    |a| == |b| && forall k :: 0 <= k < |a| ==> !(a[k] && b[k])
  }

  lemma {:induction false} ApartValues(a: Bits, b: Bits)
    requires Apart(a, b)
    ensures Value(Or(a, b)) == Value(a) + Value(b)
  {
    if a != [] {
      ApartValues(a[1..], b[1..]);
      assert Or(a, b)[1..] == Or(a[1..], b[1..]);
    }
  }

  /** Adding words without common bits never carries. */
  lemma NoCarry(a: Bits, b: Bits)
    requires Apart(a, b)
    ensures Add(a, b) == Or(a, b)
  {
    ApartValues(a, b);
    ValueRoundTrip(Or(a, b));
  }

  /** The lowest bits of a word are its value modulo a power of two. */
  lemma {:induction false} LowBits(b: Bits, n: nat)
    requires n <= |b|
    ensures Value(b[..n]) == Value(b) % Pow2(n)
  {
    if n > 0 {
      LowBits(b[1..], n - 1);
      assert b[..n][1..] == b[1..][..n - 1];
      Halve(Value(b[1..]), if b[0] then 1 else 0, Pow2(n - 1));
    }
  }

  lemma Halve(v: nat, bit: nat, m: nat)
    requires bit < 2 && m > 0
    ensures (bit + 2 * v) % (2 * m) == bit + 2 * (v % m)
  {
    var q := v / m;
    assert bit + 2 * v == q * (2 * m) + (bit + 2 * (v % m));
    Remainder(bit + 2 * v, q, 2 * m, bit + 2 * (v % m));
  }

  lemma Remainder(a: nat, q: nat, m: nat, r: nat)
    requires r < m && a == q * m + r
    ensures a % m == r
  {
    var d, e := a / m, a % m;
    assert q * m + r == d * m + e;
    assert (q - d) * m == e - r && (d - q) * m == r - e;
    if d < q { AtLeast(q - d, m); }
    if d > q { AtLeast(d - q, m); }
  }

  lemma AtLeast(x: nat, m: nat)
    requires x > 0
    ensures x * m >= m
  {
  }

  lemma {:induction false} HighZeros(b: Bits, n: nat)
    requires n <= |b| && forall k :: n <= k < |b| ==> !b[k]
    ensures Value(b) == Value(b[..n])
  {
    if b != [] {
      if n == 0 {
        HighZeros(b[1..], 0);
      } else {
        HighZeros(b[1..], n - 1);
        assert b[..n][1..] == b[1..][..n - 1];
      }
    }
  }

  // ---------------------------------------------------------------------------
  // Fields in words
  // ---------------------------------------------------------------------------

  predicate InField(k: int, start: nat, n: nat) {
    start <= k < start + n
  }

  /** Inserts by clearing the field in one word, the rest in the other, and adding. */
  method InsertBits(data: Bits, value: Bits, start: nat, n: nat) returns (r: Bits)
    requires |data| == |value| && start < |data|
    ensures |r| == |data|
    ensures forall k :: 0 <= k < |r| ==> r[k] == if InField(k, start, n) then value[k - start] else data[k]
  {
    var width := |data|;
    var v := ShiftLeft(value, start);
    var d := data;
    for i := 0 to width
      invariant |v| == |d| == width
      invariant forall k :: 0 <= k < width ==> d[k] == (data[k] && !(k < i && InField(k, start, n)))
      invariant forall k :: 0 <= k < width ==> v[k] == (k >= start && value[k - start] && !(k < i && !InField(k, start, n)))
    {
      if i >= start && i < start + n {
        d := d[i := false];
      } else {
        v := v[i := false];
      }
    }
    NoCarry(d, v);
    r := Add(d, v);
  }

  /** The form for longer words: the value is not cut to the field. */
  method InsertBitsUnmasked(data: Bits, value: Bits, start: nat, n: nat) returns (r: Bits)
    requires |data| == |value| && start < |data| && start + n <= |data|
    ensures |r| == |data|
    ensures forall k :: 0 <= k < |r| ==>
      r[k] == ((data[k] && !InField(k, start, n)) || (k >= start && value[k - start]))
  {
    var d := data;
    for i := 0 to n
      invariant |d| == |data|
      invariant forall k :: 0 <= k < |d| ==> d[k] == (data[k] && !InField(k, start, i))
    {
      d := d[start + i := false];
    }
    r := Or(d, ShiftLeft(value, start));
  }

  /** The unmasked form does what the other one does exactly if the bits of the value beyond the
      field are set only where the data already has them. */
  lemma UnmaskedAgrees(data: Bits, value: Bits, start: nat, n: nat, r: Bits, u: Bits)
    requires |r| == |u| == |data| == |value| && start + n <= |data|
    requires forall k :: 0 <= k < |r| ==> r[k] == if InField(k, start, n) then value[k - start] else data[k]
    requires forall k :: 0 <= k < |u| ==>
      u[k] == ((data[k] && !InField(k, start, n)) || (k >= start && value[k - start]))
    ensures r == u <==> forall k :: start + n <= k < |data| && value[k - start] ==> data[k]
  {
    if r == u {
      forall k | start + n <= k < |data| && value[k - start] ensures data[k] {
        assert r[k] == u[k];
      }
    } else {
      var k :| 0 <= k < |r| && r[k] != u[k];
      assert start + n <= k && value[k - start] && !data[k];
    }
  }

  /** Reads by adding up the bits of the field, one by one. */
  method ReadBits(data: Bits, start: nat, n: nat) returns (r: Bits)
    requires start + n <= |data|
    ensures |r| == |data| && r[..n] == data[start..start + n]
    ensures forall k :: n <= k < |r| ==> !r[k]
    ensures Value(r) == Value(data[start..start + n])
  {
    r := Zero(|data|);
    for i := 0 to n
      invariant |r| == |data|
      invariant forall k :: 0 <= k < |r| ==> r[k] == (k < i && data[start + k])
    {
      var bit := OneBit(data[start + i], i, |data|);
      NoCarry(r, bit);
      r := Add(r, bit);
    }
    assert r[..n] == data[start..start + n];
    HighZeros(r, n);
  }

  /** Reading back what was inserted gives the value modulo the size of the field; the rest is unchanged. */
  method InsertThenRead(data: Bits, value: Bits, start: nat, n: nat) returns (word: Bits, read: Bits)
    requires |data| == |value| && start < |data| && start + n <= |data|
    ensures |word| == |data| && |read| == |data|
    ensures Value(read) == Value(value) % Pow2(n)
    ensures word[..start] == data[..start] && word[start + n..] == data[start + n..]
  {
    word := InsertBits(data, value, start, n);
    read := ReadBits(word, start, n);
    assert word[start..start + n] == value[..n];
    LowBits(value, n);
  }

  // ---------------------------------------------------------------------------
  // Reversing
  // ---------------------------------------------------------------------------

  /** The shift of bit r when reversing, in 32-bit unsigned arithmetic. */
  function ReverseShift(n: nat, r: nat): nat {
    (n as int - 1 - r) % 0x1_0000_0000
  }

  /** Every shift stays inside the word exactly if the field starts at bit 0. */
  lemma ReverseInRange(start: nat, n: nat, width: nat)
    requires 0 < n && start + n <= width <= 64
    ensures (forall r :: start <= r < start + n ==> ReverseShift(n, r) < width) <==> start == 0
  {
    if start > 0 {
      assert ReverseShift(n, start + n - 1) >= width;
    }
  }

  method ReverseBits(data: Bits, start: nat, end: nat, n: nat) returns (r: Bits)
    requires start <= end <= n <= |data| < 0x1_0000_0000
    ensures |r| == |data|
    ensures forall k :: 0 <= k < |r| ==> r[k] == (n - end <= k < n - start && data[n - 1 - k])
  {
    r := Zero(|data|);
    for i := start to end
      invariant |r| == |data|
      invariant forall k :: 0 <= k < |r| ==> r[k] == (n - i <= k < n - start && data[n - 1 - k])
    {
      assert ReverseShift(n, i) == n - 1 - i;
      r := Or(r, OneBit(data[i], ReverseShift(n, i), |data|));
    }
  }

  /** Reversing the lowest n bits twice gives them back. */
  method ReverseTwice(data: Bits, n: nat) returns (once: Bits, twice: Bits)
    requires n <= |data| < 0x1_0000_0000
    ensures |once| == |twice| == |data|
    ensures forall k :: 0 <= k < n ==> once[k] == data[n - 1 - k]
    ensures twice[..n] == data[..n] && Value(twice) == Value(data) % Pow2(n)
  {
    once := ReverseBits(data, 0, n, n);
    twice := ReverseBits(once, 0, n, n);
    LowBits(data, n);
    assert twice[..n] == data[..n];
    HighZeros(twice, n);
  }

  // ---------------------------------------------------------------------------
  // Fields in byte strings
  // ---------------------------------------------------------------------------

  type Octet = b: seq<bool> | |b| == 8 witness [false, false, false, false, false, false, false, false]

  /** Position p of a string, counted from the most significant bit of the first byte. */
  function BitAt(data: seq<Octet>, p: nat): bool
    requires p < 8 * |data|
  {
    data[p / 8][7 - p % 8]
  }

  /** The layout of a field: its bytes, and in each byte the lowest and highest bit, counted from the lowest. */
  function FirstByte(start: nat): nat { start / 8 }

  function Span(start: nat, n: nat): nat
    requires n > 0
  {
    (start + n - 1) / 8 - start / 8
  }

  function LastByteLength(start: nat, n: nat): nat { (start + n) % 8 }

  function LowBit(start: nat, n: nat, j: nat): (k: nat)
    requires n > 0 && j <= Span(start, n)
    ensures k <= 7
  {
    if j == Span(start, n) then 7 - (start + n - 1) % 8 else 0
  }

  function HighBit(start: nat, n: nat, j: nat): (k: nat)
    requires n > 0 && j <= Span(start, n)
    ensures LowBit(start, n, j) <= k <= 7
  {
    if j == 0 then
      assert Span(start, n) == 0 ==> start % 8 <= (start + n - 1) % 8;
      7 - start % 8
    else 7
  }

  /** The bit of the value that goes to the lowest bit of byte j. */
  function Shift(start: nat, n: nat, j: nat): nat
    requires n > 0 && j <= Span(start, n)
  {
    var span, last := Span(start, n), LastByteLength(start, n);
    if span > 1 then if j != span then last + (span - 1 - j) * 8 else last
    else if span == 1 then last * (1 - j)
    else 0
  }

  /** The value has a bit, real or not, for every shift; bits beyond its width stand for whatever
      a shift by more than the width gives. */
  predicate Covers(value: Bits, start: nat, n: nat)
    requires n > 0
  {
    |value| >= 8 * (Span(start, n) + 2)
  }

  lemma ShiftBound(start: nat, n: nat, j: nat)
    requires n > 0 && j <= Span(start, n)
    ensures Shift(start, n, j) + 8 <= 8 * (Span(start, n) + 2)
  {
  }

  /** Byte j of the field after the insertion. */
  function NewOctet(was: Octet, value: Bits, low: nat, high: nat, shift: nat): Octet
    requires low <= high <= 7 && shift + 8 <= |value|
  {
    seq(8, k requires 0 <= k < 8 => if low <= k <= high then value[shift + k - low] else was[k])
  }

  /** The loops over one byte: collect the bits, clear their place, put them there. */
  method WriteOctet(was: Octet, value: Bits, low: nat, high: nat, shift: nat) returns (r: Octet)
    requires low <= high <= 7 && shift + 8 <= |value|
    ensures r == NewOctet(was, value, low, high, shift)
  {
    var toWrite := Zero(8);
    for y := 0 to high - low + 1
      invariant |toWrite| == 8
      invariant forall k :: 0 <= k < 8 ==> toWrite[k] == (k < y && value[shift + k])
    {
      toWrite := Or(toWrite, OneBit(value[shift + y], y, 8));
    }
    var overwritten: Bits := was;
    for m := 0 to high - low + 1
      invariant |overwritten| == 8
      invariant forall k :: 0 <= k < 8 ==> overwritten[k] == (was[k] && !(low <= k < low + m))
    {
      overwritten := overwritten[low + m := false];
    }
    r := Or(overwritten, ShiftLeft(toWrite, low));
  }

  /** The loop over the bytes of the field. */
  method InsertInString(data: array<Octet>, value: Bits, start: nat, n: nat) returns (r: Octet)
    requires 0 < n && start + n <= 8 * data.Length && Covers(value, start, n)
    modifies data
    ensures data[..] == Inserted(old(data[..]), value, start, n)
    ensures r == data[(start + n - 1) / 8]
  {
    ghost var was, goal := data[..], Inserted(data[..], value, start, n);
    FieldInside(start, n, data.Length);
    var first, span := FirstByte(start), Span(start, n);
    r := Zero(8);
    var j := 0;
    while j <= span
      invariant 0 <= j <= span + 1 && Partly(was, data[..], goal, first, j)
      invariant j > 0 ==> r == data[first + j - 1]
    {
      r := NewByteOf(data[first + j], value, start, n, j);
      ByteOfGoal(was, value, start, n, j);
      StoreByte(data, first + j, r, was, goal, first, j);
      j := j + 1;
    }
    OutsideGoal(was, value, start, n);
    assert data[..] == goal;
  }

  /** The bytes `first` to `first + j` are those of the goal, the rest is as it was. */
  ghost predicate Partly(was: seq<Octet>, now: seq<Octet>, goal: seq<Octet>, first: nat, j: nat) {
    && |now| == |was| == |goal|
    && forall b :: 0 <= b < |was| ==> now[b] == if first <= b < first + j then goal[b] else was[b]
  }

  method StoreByte(data: array<Octet>, b: nat, r: Octet, ghost was: seq<Octet>, ghost goal: seq<Octet>, ghost first: nat, ghost j: nat)
    requires b == first + j < data.Length && Partly(was, data[..], goal, first, j) && r == goal[b]
    modifies data
    ensures Partly(was, data[..], goal, first, j + 1) && data[b] == r
  {
    data[b] := r;
  }

  lemma FieldInside(start: nat, n: nat, bytes: nat)
    requires 0 < n && start + n <= 8 * bytes
    ensures FirstByte(start) + Span(start, n) == (start + n - 1) / 8 < bytes
  {
  }

  /** One byte: its bits are renumbered from the lowest on, and its part of the field is written. */
  method NewByteOf(was: Octet, value: Bits, start: nat, n: nat, j: nat) returns (r: Octet)
    requires 0 < n && Covers(value, start, n) && j <= Span(start, n)
    ensures Shift(start, n, j) + 8 <= |value|
    ensures r == NewOctet(was, value, LowBit(start, n, j), HighBit(start, n, j), Shift(start, n, j))
  {
    ShiftBound(start, n, j);
    var low, high := BitNumbers(start, n, j);
    r := WriteOctet(was, value, low, high, Shift(start, n, j));
  }

  /** The swap of the bit numbers: most significant first in the field, least significant first in the byte. */
  method BitNumbers(start: nat, n: nat, j: nat) returns (startBitInByte: nat, finalBitInByte: nat)
    requires n > 0 && j <= Span(start, n)
    ensures startBitInByte == LowBit(start, n, j) && finalBitInByte == HighBit(start, n, j)
  {
    startBitInByte := if j != 0 then 0 else start % 8;
    finalBitInByte := if j != Span(start, n) then 7 else (start + n - 1) % 8;
    startBitInByte, finalBitInByte := 7 - finalBitInByte, 7 - startBitInByte;
  }

  lemma ByteOfGoal(was: seq<Octet>, value: Bits, start: nat, n: nat, j: nat)
    requires 0 < n && start + n <= 8 * |was| && Covers(value, start, n) && j <= Span(start, n)
    ensures FirstByte(start) + j < |was| && Shift(start, n, j) + 8 <= |value|
    ensures Inserted(was, value, start, n)[FirstByte(start) + j] ==
      NewOctet(was[FirstByte(start) + j], value, LowBit(start, n, j), HighBit(start, n, j), Shift(start, n, j))
  {
    FieldInside(start, n, |was|);
    ShiftBound(start, n, j);
  }

  lemma OutsideGoal(was: seq<Octet>, value: Bits, start: nat, n: nat)
    requires 0 < n && start + n <= 8 * |was| && Covers(value, start, n)
    ensures forall b :: 0 <= b < |was| && !(FirstByte(start) <= b <= FirstByte(start) + Span(start, n)) ==>
      Inserted(was, value, start, n)[b] == was[b]
  {
  }

  function NewByte(data: seq<Octet>, value: Bits, start: nat, n: nat, b: nat): Octet
    requires 0 < n && start + n <= 8 * |data| && Covers(value, start, n) && b < |data|
  {
    if FirstByte(start) <= b <= FirstByte(start) + Span(start, n) then
      var j: nat := b - FirstByte(start);
      ShiftBound(start, n, j);
      NewOctet(data[b], value, LowBit(start, n, j), HighBit(start, n, j), Shift(start, n, j))
    else data[b]
  }

  function Inserted(data: seq<Octet>, value: Bits, start: nat, n: nat): (r: seq<Octet>)
    requires 0 < n && start + n <= 8 * |data| && Covers(value, start, n)
    ensures |r| == |data|
  {
    seq(|data|, b requires 0 <= b < |data| => NewByte(data, value, start, n, b))
  }

  /** The bit of the value that ends up at position p of the field. */
  function SourceBit(start: nat, n: nat, p: nat): (i: nat)
    requires n > 0 && InField(p, start, n)
    ensures i < 8 * (Span(start, n) + 2)
  {
    var j: nat := p / 8 - start / 8;
    InItsByte(start, n, p);
    ShiftBound(start, n, j);
    Shift(start, n, j) + (7 - p % 8 - LowBit(start, n, j))
  }

  lemma InItsByte(start: nat, n: nat, p: nat)
    requires n > 0
    ensures InField(p, start, n) <==>
      (start / 8 <= p / 8 <= start / 8 + Span(start, n)
       && LowBit(start, n, p / 8 - start / 8) <= 7 - p % 8 <= HighBit(start, n, p / 8 - start / 8))
  {
  }

  /** Every position outside the field keeps its bit; a position inside gets the bit of the value the code picks. */
  lemma AfterInsertion(data: seq<Octet>, value: Bits, start: nat, n: nat, p: nat)
    requires 0 < n && start + n <= 8 * |data| && Covers(value, start, n) && p < 8 * |data|
    ensures BitAt(Inserted(data, value, start, n), p) == if InField(p, start, n) then value[SourceBit(start, n, p)] else BitAt(data, p)
  {
    InItsByte(start, n, p);
    var b := p / 8;
    assert Inserted(data, value, start, n)[b] == NewByte(data, value, start, n, b);
  }

  /** One byte, or two bytes of which the second is not filled to its end. */
  predicate Handled(start: nat, n: nat)
    requires n > 0
  {
    Span(start, n) == 0 || (Span(start, n) == 1 && (start + n) % 8 != 0)
  }

  /** Position p is meant to hold bit `start + n - 1 - p` of the value; it does in the handled cases. */
  lemma PickedRight(start: nat, n: nat, p: nat)
    requires n > 0 && InField(p, start, n) && Handled(start, n)
    ensures SourceBit(start, n, p) == start + n - 1 - p
  {
    if Span(start, n) == 0 {
      assert p / 8 == start / 8;
    } else {
      TwoBytes(start, n, p);
    }
  }

  lemma TwoBytes(start: nat, n: nat, p: nat)
    requires n > 0 && InField(p, start, n) && Span(start, n) == 1 && (start + n) % 8 != 0
    ensures SourceBit(start, n, p) == start + n - 1 - p
  {
    var last := (start + n) % 8;
    assert start + n == 8 * (start / 8 + 1) + last;
    if p / 8 == start / 8 {
      assert Shift(start, n, 0) == last && LowBit(start, n, 0) == 0;
    } else {
      assert Shift(start, n, 1) == 0 && LowBit(start, n, 1) == 7 - (last - 1);
    }
  }

  /** How far the bit that position p gets lies from the one it is meant to get. If the end is not
      byte-aligned, only the last byte of three or more is wrong, by the bits that byte has; if it is, every
      byte but the last is, by eight. */
  function Offset(start: nat, n: nat, p: nat): int
    requires n > 0
  {
    var last, inLast := (start + n) % 8, p / 8 == (start + n - 1) / 8;
    if last == 0 then if inLast then 0 else -8
    else if inLast && Span(start, n) > 1 then last else 0
  }

  lemma PickedExactly(start: nat, n: nat, p: nat)
    requires n > 0 && InField(p, start, n)
    ensures SourceBit(start, n, p) == start + n - 1 - p + Offset(start, n, p)
  {
    var j := p / 8 - start / 8;
    InItsByte(start, n, p);
    if (start + n) % 8 == 0 {
      AlignedEnd(start, n, p, j);
    } else {
      LooseEnd(start, n, p, j);
    }
  }

  lemma AlignedEnd(start: nat, n: nat, p: nat, j: nat)
    requires n > 0 && InField(p, start, n) && (start + n) % 8 == 0 && j == p / 8 - start / 8 && j <= Span(start, n)
    ensures Shift(start, n, j) + 7 - p % 8 - LowBit(start, n, j) == start + n - 1 - p - if j == Span(start, n) then 0 else 8
  {
    assert start + n == 8 * (start / 8 + Span(start, n) + 1);
    assert p == 8 * (start / 8 + j) + p % 8;
    assert (start + n - 1) % 8 == 7;
  }

  lemma LooseEnd(start: nat, n: nat, p: nat, j: nat)
    requires n > 0 && InField(p, start, n) && (start + n) % 8 != 0 && j == p / 8 - start / 8 && j <= Span(start, n)
    ensures Shift(start, n, j) + 7 - p % 8 - LowBit(start, n, j) ==
      start + n - 1 - p + if j == Span(start, n) && j > 1 then (start + n) % 8 else 0
  {
    var last := (start + n) % 8;
    assert start + n == 8 * (start / 8 + Span(start, n)) + last;
    assert p == 8 * (start / 8 + j) + p % 8;
    assert (start + n - 1) % 8 == last - 1;
  }

  /** In every other case the first position of the field, or the last, gets the wrong bit. */
  lemma PickedWrong(start: nat, n: nat) returns (p: nat)
    requires n > 0 && !Handled(start, n)
    ensures InField(p, start, n) && SourceBit(start, n, p) != start + n - 1 - p
  {
    p := if (start + n) % 8 == 0 then start else start + n - 1;
  }

  /** A field read with its most significant bit first. */
  function Field(data: seq<Octet>, start: nat, n: nat): (b: Bits)
    requires start + n <= 8 * |data|
    ensures |b| == n && forall k :: 0 <= k < n ==> b[k] == BitAt(data, start + n - 1 - k)
  {
    seq(n, k requires 0 <= k < n => BitAt(data, start + n - 1 - k))
  }

  ghost predicate Stores(data: seq<Octet>, value: Bits, start: nat, n: nat)
    requires 0 < n && start + n <= 8 * |data| && Covers(value, start, n)
  {
    Value(Field(Inserted(data, value, start, n), start, n)) == Value(value) % Pow2(n)
  }

  lemma StoresInOrder(data: seq<Octet>, value: Bits, start: nat, n: nat)
    requires 0 < n && start + n <= 8 * |data| && Covers(value, start, n) && Handled(start, n)
    ensures Stores(data, value, start, n)
  {
    var f := Field(Inserted(data, value, start, n), start, n);
    HandledFits(start, n);
    forall k | 0 <= k < n ensures f[k] == value[k] {
      StoredBit(data, value, start, n, start + n - 1 - k);
    }
    assert f == value[..n];
    LowBits(value, n);
  }

  lemma HandledFits(start: nat, n: nat)
    requires 0 < n
    ensures n <= 8 * (Span(start, n) + 1)
  {
  }

  /** A position of a handled field gets the bit it is meant to. */
  lemma StoredBit(data: seq<Octet>, value: Bits, start: nat, n: nat, p: nat)
    requires 0 < n && start + n <= 8 * |data| && Covers(value, start, n) && Handled(start, n)
    requires InField(p, start, n) && n <= |value|
    ensures BitAt(Inserted(data, value, start, n), p) == value[start + n - 1 - p]
  {
    var bit := SourceBit(start, n, p);
    AfterInsertion(data, value, start, n, p);
    assert bit == start + n - 1 - p by { PickedRight(start, n, p); }
  }

  lemma {:induction false} ValueInjective(a: Bits, b: Bits)
    requires |a| == |b| && Value(a) == Value(b)
    ensures a == b
  {
    ValueRoundTrip(a);
    ValueRoundTrip(b);
  }

  /** A value of at most n bits. */
  ghost predicate FitsField(value: Bits, n: nat) {
    forall k :: n <= k < |value| ==> !value[k]
  }

  /** A value that fits the field and is stored wrongly, whatever was in the string. */
  lemma StoresWrong(data: seq<Octet>, start: nat, n: nat) returns (value: Bits)
    requires 0 < n && start + n <= 8 * |data| && !Handled(start, n)
    ensures Covers(value, start, n) && FitsField(value, n) && !Stores(data, value, start, n)
  {
    var p := PickedWrong(start, n);
    var width := 8 * (Span(start, n) + 2);
    value := OneBit(true, start + n - 1 - p, width);
    var f := Field(Inserted(data, value, start, n), start, n);
    AfterInsertion(data, value, start, n, p);
    assert !f[start + n - 1 - p];
    assert f != value[..n];
    LowBits(value, n);
    if Value(f) == Value(value[..n]) { ValueInjective(f, value[..n]); }
  }

  /** Every value is stored most significant bit first exactly in the handled cases; in the others not
      even every value that fits the field is. */
  lemma StoredExactly(data: seq<Octet>, start: nat, n: nat)
    requires 0 < n && start + n <= 8 * |data|
    ensures (forall value :: Covers(value, start, n) ==> Stores(data, value, start, n)) <==> Handled(start, n)
    ensures (forall value :: Covers(value, start, n) && FitsField(value, n) ==> Stores(data, value, start, n)) <==> Handled(start, n)
  {
    if Handled(start, n) {
      forall value | Covers(value, start, n) ensures Stores(data, value, start, n) {
        StoresInOrder(data, value, start, n);
      }
    } else {
      var value := StoresWrong(data, start, n);
    }
  }
}
