/** The fragment overlay: a header word with a 28-bit size and a 4-bit type, and the data bytes
    after it; and how received packets are laid out in it. */
module UdpFragment {

  type Byte = x: int | 0 <= x < 256
  type Packet = seq<Byte>
  type Word = x: int | 0 <= x < 0x1_0000_0000

  const SIZE_LIMIT := 0x1000_0000
  const TWO_TO_64 := 0x1_0000_0000_0000_0000

  // ---------------------------------------------------------------------------
  // Sizes and header fields
  // ---------------------------------------------------------------------------

  function BytesToWords(n: nat): nat {
    if n % 4 == 0 then n / 4 else n / 4 + 1
  }

  /** Words of the header and of n bytes of data. */
  function EventSizeWords(n: nat): nat {
    BytesToWords(n) + 1
  }

  /** A fragment's payload is made of 8-byte elements. */
  function RoundedUp(bytes: nat): nat {
    (bytes + 7) / 8 * 8
  }

  function EventSize(header: Word): nat { header % SIZE_LIMIT }
  function DataType(header: Word): nat { header / SIZE_LIMIT }

  function WithEventSize(header: Word, words: nat): Word {
    header / SIZE_LIMIT * SIZE_LIMIT + words % SIZE_LIMIT
  }

  function WithDataType(header: Word, t: nat): Word {
    t % 16 * SIZE_LIMIT + header % SIZE_LIMIT
  }

  /** How many data bytes a reader sees, in 64-bit unsigned arithmetic. */
  function DataBytes(header: Word): nat {
    (EventSize(header) - 1) % TWO_TO_64 * 4 % TWO_TO_64
  }

  /** Each field reads back what was written to it and keeps the other, in any order. */
  lemma FieldsAreIndependent(header: Word, words: nat, t: nat)
    ensures EventSize(WithEventSize(header, words)) == words % SIZE_LIMIT
    ensures DataType(WithEventSize(header, words)) == DataType(header)
    ensures DataType(WithDataType(header, t)) == t % 16
    ensures EventSize(WithDataType(header, t)) == EventSize(header)
    ensures WithDataType(WithEventSize(header, words), t) == WithEventSize(WithDataType(header, t), words)
  {
  }

  /** The reader's range is the data as resized exactly if the size fits the field. */
  lemma ReaderSeesAll(header: Word, n: nat)
    requires EventSize(header) == EventSizeWords(n) % SIZE_LIMIT && n < TWO_TO_64 / 2
    ensures DataBytes(header) == 4 * BytesToWords(n) <==> EventSizeWords(n) < SIZE_LIMIT
  {
  }

  // ---------------------------------------------------------------------------
  // What a fragment holds
  // ---------------------------------------------------------------------------

  function Concat(packets: seq<Packet>): Packet {
    if packets == [] then [] else Concat(packets[..|packets| - 1]) + packets[|packets| - 1]
  }

  /** The bytes before the first zero. */
  function BeforeZero(p: Packet): (r: Packet)
    ensures r <= p && 0 !in r
    ensures |r| < |p| <==> 0 in p
    ensures |r| < |p| ==> p[|r|] == 0
  {
    if p == [] || p[0] == 0 then [] else [p[0]] + BeforeZero(p[1..])
  }

  /** JSON and strings are cut at a zero and terminated by one. */
  predicate IsText(dataType: nat) { dataType == 1 || dataType == 2 }

  function Part(p: Packet, text: bool): Packet {
    if text then BeforeZero(p) else p
  }

  function Kept(packets: seq<Packet>, text: bool): Packet {
    if packets == [] then [] else Kept(packets[..|packets| - 1], text) + Part(packets[|packets| - 1], text)
  }

  function Payload(packets: seq<Packet>, text: bool): Packet {
    Kept(packets, text) + if text then [0] else []
  }

  /** The type nibble of the first byte of the first packet. */
  function TypeOf(packets: seq<Packet>): nat
    requires packets != [] && packets[0] != []
  {
    packets[0][0] / 16
  }

  /** A first byte is its type nibble above its return-code nibble: raw, JSON, string and further types in
      this order, of which JSON and string are text. */
  lemma TypeIsHighNibble(packets: seq<Packet>, high: nat, low: nat)
    requires packets != [] && packets[0] != [] && high < 16 && low < 16 && packets[0][0] == 16 * high + low
    ensures TypeOf(packets) == high
    ensures IsText(TypeOf(packets)) <==> 0x10 <= packets[0][0] <= 0x2F
  {
  }

  // ---------------------------------------------------------------------------
  // The writer
  // ---------------------------------------------------------------------------

  class Writer {
    var header: Word
    /** The bytes of the payload after the header word. */
    var data: array<Byte>

    /** Room for the header word; what it and the rest of the payload contain is not determined. */
    constructor (anything: Word)
      ensures fresh(data) && 4 + data.Length == RoundedUp(4)
      ensures header == anything
    {
      header := anything;
      data := new Byte[4];
    }

    function SizeBytes(): nat
      reads this
    {
      4 + data.Length
    }

    method Resize(n: nat)
      modifies this
      ensures fresh(data) && SizeBytes() == RoundedUp(4 * EventSizeWords(n))
      ensures EventSize(header) == EventSizeWords(n) % SIZE_LIMIT && DataType(header) == DataType(old(header))
    {
      FieldsAreIndependent(header, EventSizeWords(n), 0);
      data := new Byte[RoundedUp(4 * EventSizeWords(n)) - 4];
      header := WithEventSize(header, EventSizeWords(n));
    }

    method SetType(t: nat)
      modifies this`header
      ensures DataType(header) == t % 16 && EventSize(header) == EventSize(old(header))
    {
      FieldsAreIndependent(header, 0, t);
      header := WithDataType(header, t);
    }

    /** The assertion that guards access to the data. */
    method DataBegin() returns (failed: bool)
      ensures failed <==> SizeBytes() < 4 + 8
    {
      return SizeBytes() < 4 + 8;
    }

    /** Copies one packet to `pos` and on, up to its first zero if it is text. */
    method CopyPacket(packet: Packet, text: bool, pos: nat) returns (pos': nat)
      requires pos + |packet| <= data.Length
      modifies data
      ensures pos <= pos' <= pos + |packet|
      ensures data[..pos'] == old(data[..pos]) + Part(packet, text)
    {
      pos' := pos;
      var i := 0;
      while i < |packet|
        invariant 0 <= i <= |packet| && pos' == pos + i
        invariant forall k :: 0 <= k < i ==> data[pos + k] == packet[k]
        invariant text ==> forall k :: 0 <= k < i ==> packet[k] != 0
        invariant forall k :: 0 <= k < pos ==> data[k] == old(data[k])
      {
        if packet[i] == 0 && text { break; }
        data[pos'] := packet[i];
        pos', i := pos' + 1, i + 1;
      }
      if text { BeforeZeroIs(packet, i); }
      assert Part(packet, text) == packet[..i];
      assert data[..pos'] == old(data[..pos]) + packet[..i];
    }

    /** Copies all packets, one after the other, and terminates text. */
    method CopyPackets(packets: seq<Packet>, text: bool)
      requires |Concat(packets)| + 1 <= data.Length
      modifies data
      ensures |Payload(packets, text)| <= data.Length
      ensures data[..|Payload(packets, text)|] == Payload(packets, text)
    {
      var pos: nat := 0;
      var j := 0;
      while j < |packets|
        invariant 0 <= j <= |packets| && pos <= |Concat(packets[..j])| <= |Concat(packets)|
        invariant data[..pos] == Kept(packets[..j], text)
      {
        ConcatFits(packets, j);
        KeptMore(packets, text, j);
        pos := CopyPacket(packets[j], text, pos);
        j := j + 1;
      }
      assert packets[..j] == packets;
      if text {
        ghost var before := data[..pos];
        data[pos] := 0;
        assert data[..pos + 1] == before + [0];
      }
    }

    /** Makes room for the data and sets both header fields. */
    method Prepare(total: nat, t: nat)
      requires t < 16
      modifies this
      ensures fresh(data) && SizeBytes() == RoundedUp(4 * EventSizeWords(total + 1))
      ensures data.Length >= total + 1 && (SizeBytes() < 12 <==> total < 4)
      ensures DataType(header) == t && EventSize(header) == EventSizeWords(total + 1) % SIZE_LIMIT
    {
      RoomForData(total);
      Resize(total + 1);
      SetType(t);
    }

    /** Lays the packets out in the fragment. Reaching the data fails its assertion exactly if there
        are fewer than four bytes; otherwise the type is that of the first packet and the data starts
        with the payload. */
    method ProcessData(packets: seq<Packet>) returns (failed: bool)
      requires packets != [] && |packets[0]| >= 2
      modifies this, data
      ensures failed <==> |Concat(packets)| < 4
      ensures fresh(data) && SizeBytes() == RoundedUp(4 * EventSizeWords(|Concat(packets)| + 1))
      ensures HeaderFits(header, packets)
      ensures !failed ==> HoldsPayload(data[..], Payload(packets, IsText(TypeOf(packets))))
    {
      var text := IsText(TypeOf(packets));
      Prepare(|Concat(packets)|, TypeOf(packets));
      failed := DataBegin();
      if !failed {
        CopyPackets(packets, text);
        ghost var n := |Payload(packets, text)|;
        assert data[..][..n] == data[..n];
      }
    }
  }

  /** The header gives the type of the first packet and, in 28 bits, the size of all of them and a terminator. */
  ghost predicate HeaderFits(header: Word, packets: seq<Packet>)
    requires packets != [] && packets[0] != []
  {
    DataType(header) == TypeOf(packets) && EventSize(header) == EventSizeWords(|Concat(packets)| + 1) % SIZE_LIMIT
  }

  /** The data starts with the payload. */
  ghost predicate HoldsPayload(data: seq<Byte>, payload: Packet) {
    |payload| <= |data| && data[..|payload|] == payload
  }

  /** The resized payload has room for all bytes and a terminator, and passes the assertion from four bytes on. */
  lemma RoomForData(total: nat)
    ensures 4 + total + 1 <= RoundedUp(4 * EventSizeWords(total + 1))
    ensures RoundedUp(4 * EventSizeWords(total + 1)) < 12 <==> total < 4
  {
  }

  lemma KeptMore(packets: seq<Packet>, text: bool, j: nat)
    requires j < |packets|
    ensures Kept(packets[..j + 1], text) == Kept(packets[..j], text) + Part(packets[j], text)
  {
    assert packets[..j + 1][..j] == packets[..j] && packets[..j + 1][j] == packets[j];
  }

  lemma {:induction false} BeforeZeroIs(p: Packet, i: nat)
    requires i <= |p| && (forall k :: 0 <= k < i ==> p[k] != 0) && (i < |p| ==> p[i] == 0)
    ensures BeforeZero(p) == p[..i]
  {
    if i > 0 {
      BeforeZeroIs(p[1..], i - 1);
      assert p[..i] == [p[0]] + p[1..][..i - 1];
    }
  }

  lemma {:induction false} ConcatFits(packets: seq<Packet>, j: nat)
    requires j < |packets|
    ensures |Concat(packets[..j])| + |packets[j]| == |Concat(packets[..j + 1])| <= |Concat(packets)|
    decreases |packets| - j
  {
    assert packets[..j + 1][..j] == packets[..j] && packets[..j + 1][j] == packets[j];
    if j + 1 < |packets| {
      ConcatFits(packets, j + 1);
    } else {
      assert packets[..j + 1] == packets;
    }
  }

  // ---------------------------------------------------------------------------
  // What a reader gets
  // ---------------------------------------------------------------------------

  /** Raw data is the packets themselves, one after the other. */
  lemma {:induction false} RawKeepsAll(packets: seq<Packet>)
    ensures Payload(packets, false) == Concat(packets)
  {
    if packets != [] { RawKeepsAll(packets[..|packets| - 1]); }
  }

  ghost predicate NoZero(packets: seq<Packet>) {
    forall j :: 0 <= j < |packets| ==> 0 !in packets[j]
  }

  /** Text, read as a zero-terminated string, is what was kept of the packets; that is everything
      exactly if no packet contains a zero byte. */
  lemma {:induction false} TextKeeps(packets: seq<Packet>)
    ensures BeforeZero(Payload(packets, true)) == Kept(packets, true)
    ensures |Kept(packets, true)| <= |Concat(packets)|
    ensures Kept(packets, true) == Concat(packets) <==> NoZero(packets)
  {
    if packets != [] {
      var n := |packets| - 1;
      TextKeeps(packets[..n]);
      var r, c := Kept(packets[..n], true), Concat(packets[..n]);
      assert 0 !in r;
      if NoZero(packets) {
        assert NoZero(packets[..n]);
        assert 0 !in packets[n];
      } else if Kept(packets, true) == Concat(packets) {
        assert |r| == |c| && |BeforeZero(packets[n])| == |packets[n]|;
        assert r == Kept(packets, true)[..|c|] == c;
        assert NoZero(packets[..n]) && 0 !in packets[n];
        assert forall j :: 0 <= j < n ==> packets[j] == packets[..n][j];
        assert false;
      }
    }
    BeforeZeroIs(Payload(packets, true), |Kept(packets, true)|);
  }

  /** A text packet with sequence number 0 keeps only its first byte. */
  lemma ZeroSequenceNumber(p: Packet)
    requires |p| >= 2 && p[0] != 0 && p[1] == 0
    ensures BeforeZero(p) == [p[0]]
  {
    BeforeZeroIs(p, 1);
  }

  lemma KeptIsNoMore(packets: seq<Packet>, text: bool)
    ensures |Payload(packets, text)| <= |Concat(packets)| + 1
  {
    if text { TextKeeps(packets); } else { RawKeepsAll(packets); }
  }

  lemma ReaderRange(header: Word, n: nat)
    requires EventSize(header) == EventSizeWords(n) < SIZE_LIMIT
    ensures n <= DataBytes(header) <= RoundedUp(4 * EventSizeWords(n)) - 4
  {
    ReaderSeesAll(header, n);
  }

  /** A reader that trusts the header sees all of the payload, if the size fits its field. */
  lemma ReaderSeesPayload(header: Word, packets: seq<Packet>, data: seq<Byte>)
    requires packets != [] && |packets[0]| >= 2 && HeaderFits(header, packets)
    requires 4 + |data| == RoundedUp(4 * EventSizeWords(|Concat(packets)| + 1))
    requires HoldsPayload(data, Payload(packets, IsText(TypeOf(packets))))
    requires EventSizeWords(|Concat(packets)| + 1) < SIZE_LIMIT
    ensures DataBytes(header) <= |data|
    ensures HoldsPayload(data[..DataBytes(header)], Payload(packets, IsText(DataType(header))))
  {
    ReaderRange(header, |Concat(packets)| + 1);
    KeptIsNoMore(packets, IsText(TypeOf(packets)));
    CutPayload(data, DataBytes(header), Payload(packets, IsText(TypeOf(packets))));
  }

  lemma CutPayload(data: seq<Byte>, size: nat, payload: Packet)
    requires HoldsPayload(data, payload) && |payload| <= size <= |data|
    ensures HoldsPayload(data[..size], payload)
  {
    assert data[..size][..|payload|] == data[..|payload|];
  }
}
