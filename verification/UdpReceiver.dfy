/** Receiving datagrams: the window on 8-bit sequence numbers, the hand-off from the receiving
    thread to the thread that makes fragments, and how many datagrams each may lose. */
module UdpReceiver {
  import opened UdpFragment

  const MAX_BYTES := 1500

  // ---------------------------------------------------------------------------
  // The sequence window
  // ---------------------------------------------------------------------------

  predicate Accept(number: Byte, expected: Byte) {
    number >= expected || (number < 64 && expected > 192)
  }

  /** A count as its 8 bits. */
  function Wrap(n: nat): Byte { n % 256 }

  function Successor(number: Byte): Byte {
    if number == 255 then 0 else number + 1
  }

  /** The number expected next. */
  function Next(number: Byte, expected: Byte): Byte {
    if Accept(number, expected) then Successor(number) else expected
  }

  /** The datagram that follows a number of losses is accepted. */
  ghost predicate AcceptedAfter(losses: nat, expected: Byte) {
    var e: nat := expected;
    Accept(Wrap(e + losses), expected)
  }

  /** After a number of losses the next datagram is accepted, whatever was expected, exactly if the
      losses are at most 63, not counting whole rounds of 256. */
  lemma LossesTolerated(losses: nat)
    ensures (forall expected: Byte :: AcceptedAfter(losses, expected)) <==> losses % 256 <= 63
  {
    var l := losses % 256;
    if l > 63 {
      assert Wrap(256 - l + losses) == 0;
      assert !AcceptedAfter(losses, 256 - l);
    } else {
      forall expected: Byte ensures AcceptedAfter(losses, expected) {
        var e: nat := expected;
        assert Wrap(e + losses) == Wrap(e + l);
      }
    }
  }

  /** The numbers the sender counted, without their reduction to 8 bits, of the datagrams that arrive:
      in order, each with at most `losses` missing before it. */
  ghost predicate InOrder(counts: seq<nat>, first: nat, losses: nat) {
    forall i :: 0 <= i < |counts| ==> Due(counts, first, i) <= counts[i] <= Due(counts, first, i) + losses
  }

  /** The count that is due as the i-th. */
  function Due(counts: seq<nat>, first: nat, i: nat): nat
    requires i <= |counts|
  {
    if i == 0 then first else counts[i - 1] + 1
  }

  /** The number expected once the first n datagrams have been looked at. */
  function ExpectedAfter(counts: seq<nat>, expected: Byte, n: nat): Byte
    requires n <= |counts|
  {
    if n == 0 then expected else Next(Wrap(counts[n - 1]), ExpectedAfter(counts, expected, n - 1))
  }

  ghost predicate Accepted(counts: seq<nat>, expected: Byte, i: nat)
    requires i < |counts|
  {
    Accept(Wrap(counts[i]), ExpectedAfter(counts, expected, i))
  }

  lemma Succeeds(n: nat)
    ensures Successor(Wrap(n)) == Wrap(n + 1)
  {
  }

  lemma Rounds(n: nat, more: nat)
    ensures var w: nat := Wrap(n); Wrap(w + more) == Wrap(n + more)
  {
  }

  /** An in-order stream of any length with at most 63 losses in a row is never rejected. */
  lemma {:induction false} InOrderAccepted(counts: seq<nat>, first: nat, i: nat)
    requires InOrder(counts, first, 63) && i < |counts|
    ensures Accepted(counts, Wrap(first), i)
    ensures ExpectedAfter(counts, Wrap(first), i + 1) == Wrap(counts[i] + 1)
  {
    if i > 0 { InOrderAccepted(counts, first, i - 1); }
    var due := Due(counts, first, i);
    assert ExpectedAfter(counts, Wrap(first), i) == Wrap(due);
    SmallGap(due, counts[i]);
  }

  lemma SmallGap(due: nat, count: nat)
    requires due <= count <= due + 63
    ensures Accept(Wrap(count), Wrap(due)) && Next(Wrap(count), Wrap(due)) == Wrap(count + 1)
  {
    Succeeds(count);
    LossesTolerated(count - due);
    assert AcceptedAfter(count - due, Wrap(due));
    Rounds(due, count - due);
  }

  /** With 64 losses allowed there is a stream that is rejected. */
  lemma SixtyFourLosses()
    ensures InOrder([256], 192, 64) && !Accepted([256], Wrap(192), 0)
  {
  }

  /** How many datagrams of an unbroken stream are rejected before it is in step. */
  function Rejections(number: Byte, expected: Byte): (n: nat)
    ensures n <= 192
  {
    if Accept(number, expected) then 0 else expected - number
  }

  lemma {:induction false} UnbrokenCounts(counts: seq<nat>, first: nat, i: nat)
    requires InOrder(counts, first, 0) && i < |counts|
    ensures counts[i] == first + i
  {
    if i > 0 { UnbrokenCounts(counts, first, i - 1); }
    assert Due(counts, first, i) == first + i;
  }

  /** From any state, an unbroken stream is rejected for at most 192 datagrams and accepted ever after. */
  lemma {:induction false} UnbrokenStream(first: nat, expected: Byte, counts: seq<nat>, i: nat)
    requires InOrder(counts, first, 0) && i < |counts|
    ensures Accepted(counts, expected, i) <==> i >= Rejections(Wrap(first), expected)
    ensures ExpectedAfter(counts, expected, i + 1) ==
      if i >= Rejections(Wrap(first), expected) then Wrap(first + i + 1) else expected
  {
    UnbrokenCounts(counts, first, i);
    if i > 0 { UnbrokenStream(first, expected, counts, i - 1); }
    NextInStream(first, i, expected, ExpectedAfter(counts, expected, i));
  }

  /** Datagram i of an unbroken stream, with the number expected then. */
  lemma NextInStream(first: nat, i: nat, expected: Byte, now: Byte)
    requires now == if i > Rejections(Wrap(first), expected) then Wrap(first + i) else expected
    ensures Accept(Wrap(first + i), now) <==> i >= Rejections(Wrap(first), expected)
    ensures Next(Wrap(first + i), now) == if i >= Rejections(Wrap(first), expected) then Wrap(first + i + 1) else expected
  {
    Succeeds(first + i);
    if i <= Rejections(Wrap(first), expected) { StillBehind(first, i, expected); }
  }

  lemma StillBehind(first: nat, i: nat, expected: Byte)
    requires i <= Rejections(Wrap(first), expected)
    ensures Accept(Wrap(first + i), expected) <==> i == Rejections(Wrap(first), expected)
  {
    var number: nat := Wrap(first);
    assert number + i < 256;
    assert Wrap(first + i) == number + i by { Rounds(first, i); }
  }

  /** The bound of 192 is reached. */
  lemma RejectionsReached()
    ensures Rejections(0, 192) == 192
  {
  }

  // ---------------------------------------------------------------------------
  // The hand-off between the two threads
  // ---------------------------------------------------------------------------

  datatype Fragment = Fragment(id: nat, packets: seq<Packet>)

  /** The receiver and the fragments it has made so far. */
  datatype State = State(expected: Byte, receiving: seq<Packet>, packets: seq<Packet>, counter: nat, emitted: seq<Fragment>)

  /** The receiving thread's step, and the two steps of making a fragment. */
  datatype Event = Arrive(datagram: Packet) | Take | Emit

  /** What is read of a datagram. */
  function Read(datagram: Packet): Packet {
    if |datagram| <= MAX_BYTES then datagram else datagram[..MAX_BYTES]
  }

  /** A datagram of at most 1500 bytes is kept whole; a longer one keeps its first 1500. */
  lemma ReadKeeps(datagram: Packet)
    ensures Read(datagram) <= datagram
    ensures |Read(datagram)| == if |datagram| <= 1500 then |datagram| else 1500
  {
  }

  function Received(s: State, datagram: Packet): State
    requires |datagram| >= 2
  {
    if Accept(datagram[1], s.expected) then
      s.(expected := Successor(datagram[1]), receiving := s.receiving + [Read(datagram)])
    else s
  }

  function Taken(s: State): State {
    s.(packets := s.packets + s.receiving, receiving := [])
  }

  function Emitted(s: State): State {
    if s.packets == [] then s
    else s.(packets := [], counter := s.counter + 1, emitted := s.emitted + [Fragment(s.counter, s.packets)])
  }

  /** Each datagram has its two header bytes. */
  predicate EventOk(e: Event) {
    e.Arrive? ==> |e.datagram| >= 2
  }

  function Step(s: State, e: Event): State
    requires EventOk(e)
  {
    match e
    case Arrive(d) => Received(s, d)
    case Take => Taken(s)
    case Emit => Emitted(s)
  }

  ghost predicate EventsOk(events: seq<Event>) {
    forall i :: 0 <= i < |events| ==> EventOk(events[i])
  }

  ghost function Run(s: State, events: seq<Event>): State
    requires EventsOk(events)
  {
    if events == [] then s else
    assert EventOk(events[|events| - 1]);
    Step(Run(s, events[..|events| - 1]), events[|events| - 1])
  }

  // ---------------------------------------------------------------------------
  // Conservation
  // ---------------------------------------------------------------------------

  /** The datagrams that arrived. */
  function Arrivals(events: seq<Event>): seq<Packet> {
    if events == [] then []
    else
      var e := events[|events| - 1];
      Arrivals(events[..|events| - 1]) + if e.Arrive? then [e.datagram] else []
  }

  /** What the window leaves of a stream of datagrams, and the number expected after it. */
  function Window(datagrams: seq<Packet>, expected: Byte): (seq<Packet>, Byte)
    requires forall i :: 0 <= i < |datagrams| ==> |datagrams[i]| >= 2
  {
    if datagrams == [] then ([], expected)
    else
      var (kept, e) := Window(datagrams[..|datagrams| - 1], expected);
      var d := datagrams[|datagrams| - 1];
      if Accept(d[1], e) then (kept + [Read(d)], Successor(d[1])) else (kept, e)
  }

  /** The packets of a list of fragments, in order. */
  function PacketsIn(fragments: seq<Fragment>): seq<Packet> {
    if fragments == [] then []
    else PacketsIn(fragments[..|fragments| - 1]) + fragments[|fragments| - 1].packets
  }

  /** Everything the receiver has accepted and where it is now. */
  function Held(s: State): seq<Packet> {
    PacketsIn(s.emitted) + s.packets + s.receiving
  }

  /** Fragments are numbered one after the other and none is empty. */
  ghost predicate Numbered(s: State, start: nat) {
    && s.counter == start + |s.emitted|
    && forall k :: 0 <= k < |s.emitted| ==> s.emitted[k].id == start + k && s.emitted[k].packets != []
  }

  lemma EmitKeeps(s: State)
    ensures Held(Emitted(s)) == Held(s)
  {
    if s.packets != [] {
      var t := Emitted(s);
      assert t.emitted[..|t.emitted| - 1] == s.emitted;
      assert PacketsIn(t.emitted) == PacketsIn(s.emitted) + s.packets;
    }
  }

  lemma {:induction false} ArrivalsOk(events: seq<Event>)
    requires EventsOk(events)
    ensures forall i :: 0 <= i < |Arrivals(events)| ==> |Arrivals(events)[i]| >= 2
  {
    if events != [] {
      ArrivalsOk(events[..|events| - 1]);
      assert EventOk(events[|events| - 1]);
    }
  }

  /** What the receiver holds is what the window leaves of the arrivals. */
  ghost predicate Conserved(s: State, expected: Byte, arrivals: seq<Packet>)
    requires forall i :: 0 <= i < |arrivals| ==> |arrivals[i]| >= 2
  {
    Window(arrivals, expected) == (Held(s), s.expected)
  }

  lemma ArriveConserves(s: State, expected: Byte, arrivals: seq<Packet>, d: Packet)
    requires (forall i :: 0 <= i < |arrivals| ==> |arrivals[i]| >= 2) && |d| >= 2 && Conserved(s, expected, arrivals)
    ensures Conserved(Received(s, d), expected, arrivals + [d])
  {
    assert (arrivals + [d])[..|arrivals|] == arrivals;
    assert PacketsIn(s.emitted) + s.packets + (s.receiving + [Read(d)]) == Held(s) + [Read(d)];
  }

  /** In every interleaving of arrivals with the two steps of making fragments: the packets in the
      fragments, then those being handed over, then those just received, are exactly the datagrams the
      window accepts, in order, none lost or twice. */
  lemma {:induction false} Conservation(expected: Byte, start: nat, events: seq<Event>)
    requires EventsOk(events)
    ensures forall i :: 0 <= i < |Arrivals(events)| ==> |Arrivals(events)[i]| >= 2
    ensures Conserved(Run(State(expected, [], [], start, []), events), expected, Arrivals(events))
  {
    ArrivalsOk(events);
    if events == [] {
      assert Held(State(expected, [], [], start, [])) == [];
    } else {
      var n := |events| - 1;
      Conservation(expected, start, events[..n]);
      var s := Run(State(expected, [], [], start, []), events[..n]);
      assert EventOk(events[n]);
      if events[n].Arrive? {
        ArriveConserves(s, expected, Arrivals(events[..n]), events[n].datagram);
      } else {
        assert Arrivals(events) == Arrivals(events[..n]);
        assert Held(Taken(s)) == Held(s);
        EmitKeeps(s);
      }
    }
  }

  /** The datagrams carry the 8-bit form of the counts. */
  ghost predicate Carries(datagrams: seq<Packet>, counts: seq<nat>) {
    |datagrams| == |counts| && forall i :: 0 <= i < |datagrams| ==> |datagrams[i]| >= 2 && datagrams[i][1] == Wrap(counts[i])
  }

  function AllRead(datagrams: seq<Packet>): seq<Packet> {
    seq(|datagrams|, i requires 0 <= i < |datagrams| => Read(datagrams[i]))
  }

  /** If every datagram is accepted, the window leaves all of them. */
  lemma {:induction false} WindowKeepsAll(datagrams: seq<Packet>, counts: seq<nat>, expected: Byte)
    requires Carries(datagrams, counts) && forall i :: 0 <= i < |counts| ==> Accepted(counts, expected, i)
    ensures Window(datagrams, expected) == (AllRead(datagrams), ExpectedAfter(counts, expected, |counts|))
  {
    if datagrams != [] {
      var n := |datagrams| - 1;
      forall i | 0 <= i < n ensures Accepted(counts[..n], expected, i) {
        SameExpected(counts, n, expected, i);
        assert Accepted(counts, expected, i) && counts[..n][i] == counts[i];
      }
      WindowKeepsAll(datagrams[..n], counts[..n], expected);
      SameExpected(counts, n, expected, n);
      assert Accepted(counts, expected, n);
      assert AllRead(datagrams) == AllRead(datagrams[..n]) + [Read(datagrams[n])];
    } else {
      assert AllRead(datagrams) == [];
    }
  }

  lemma {:induction false} SameExpected(counts: seq<nat>, n: nat, expected: Byte, i: nat)
    requires i <= n <= |counts|
    ensures ExpectedAfter(counts[..n], expected, i) == ExpectedAfter(counts, expected, i)
    decreases i
  {
    if i > 0 { SameExpected(counts, n, expected, i - 1); }
  }

  /** In every interleaving, if the datagrams that arrive are in order with at most 63 losses in a row, all of
      them, each with its first 1500 bytes, are in the fragments or in the buffers, in order. */
  lemma InOrderKept(first: nat, start: nat, events: seq<Event>, counts: seq<nat>)
    requires EventsOk(events) && Carries(Arrivals(events), counts) && InOrder(counts, first, 63)
    ensures Held(Run(State(Wrap(first), [], [], start, []), events)) == AllRead(Arrivals(events))
  {
    Conservation(Wrap(first), start, events);
    forall i | 0 <= i < |counts| ensures Accepted(counts, Wrap(first), i) { InOrderAccepted(counts, first, i); }
    WindowKeepsAll(Arrivals(events), counts, Wrap(first));
  }

  /** Taking over and then making a fragment empties both buffers; it makes one fragment of everything in
      them, under the current count, and counts one on, if there is anything, and nothing otherwise. */
  lemma DrainEmits(s: State)
    ensures var t := Step(Step(s, Take), Emit);
      && t.receiving == [] && t.packets == [] && t.expected == s.expected
      && if s.packets + s.receiving == [] then t.emitted == s.emitted && t.counter == s.counter
         else t.emitted == s.emitted + [Fragment(s.counter, s.packets + s.receiving)] && t.counter == s.counter + 1
  {
  }

  /** In every interleaving, fragments are non-empty and numbered one after the other. */
  lemma {:induction false} Numbering(expected: Byte, start: nat, events: seq<Event>)
    requires EventsOk(events)
    ensures Numbered(Run(State(expected, [], [], start, []), events), start)
  {
    if events != [] {
      Numbering(expected, start, events[..|events| - 1]);
      assert EventOk(events[|events| - 1]);
    }
  }

  // ---------------------------------------------------------------------------
  // The receiver itself
  // ---------------------------------------------------------------------------

  class Receiver {
    var expectedPacketNumber: Byte
    var receiveBuffers: seq<Packet>
    var packetBuffers: seq<Packet>
    var eventCounter: nat

    constructor (start: nat)
      ensures Now([]) == State(0, [], [], start, [])
    {
      expectedPacketNumber, receiveBuffers, packetBuffers, eventCounter := 0, [], [], start;
    }

    /** The state, with the fragments made so far. */
    ghost function Now(emitted: seq<Fragment>): State
      reads this
    {
      State(expectedPacketNumber, receiveBuffers, packetBuffers, eventCounter, emitted)
    }

    /** One datagram in the receiving thread. */
    method Receive(datagram: Packet)
      requires |datagram| >= 2
      modifies this`expectedPacketNumber, this`receiveBuffers
      ensures Now([]) == Received(old(Now([])), datagram)
    {
      var number := datagram[1];
      if number >= expectedPacketNumber || (number < 64 && expectedPacketNumber > 192) {
        if number != expectedPacketNumber {
          expectedPacketNumber := number;
        }
        var buffer := if |datagram| <= MAX_BYTES then datagram else datagram[..MAX_BYTES];
        receiveBuffers := receiveBuffers + [buffer];
        expectedPacketNumber := Successor(expectedPacketNumber);
      }
    }

    /** Moves what was received over, one packet at a time, under the lock. */
    method TakeBuffers()
      modifies this`receiveBuffers, this`packetBuffers
      ensures Now([]) == Taken(old(Now([])))
    {
      var i := 0;
      while i < |receiveBuffers|
        invariant 0 <= i <= |receiveBuffers| && receiveBuffers == old(receiveBuffers)
        invariant packetBuffers == old(packetBuffers) + receiveBuffers[..i]
      {
        packetBuffers := packetBuffers + [receiveBuffers[i]];
        i := i + 1;
      }
      receiveBuffers := [];
    }

    /** Makes one fragment of the packets taken over, if there are any. */
    method EmitFragment(garbage: Word) returns (output: seq<Writer>, failed: bool)
      requires packetBuffers != [] ==> |packetBuffers[0]| >= 2
      modifies this`packetBuffers, this`eventCounter
      ensures Now([]).(emitted := Emitted(old(Now([]))).emitted) == Emitted(old(Now([])))
      ensures |output| == (if old(packetBuffers) == [] then 0 else 1)
      ensures output != [] ==> fresh(output[0]) && fresh(output[0].data)
      ensures output != [] ==> (failed <==> |Concat(old(packetBuffers))| < 4)
      ensures output != [] ==> HeaderFits(output[0].header, old(packetBuffers))
      ensures output != [] && !failed ==>
        HoldsPayload(output[0].data[..], Payload(old(packetBuffers), IsText(TypeOf(old(packetBuffers)))))
    {
      output, failed := [], false;
      if packetBuffers != [] {
        eventCounter := eventCounter + 1;
        var fragment := new Writer(garbage);
        failed := fragment.ProcessData(packetBuffers);
        packetBuffers := [];
        output := [fragment];
      }
    }

    /** The call that hands fragments on: nothing at all when stopping. */
    method GetNext(stopping: bool, garbage: Word) returns (more: bool, output: seq<Writer>, failed: bool)
      requires forall i :: 0 <= i < |packetBuffers| ==> |packetBuffers[i]| >= 2
      requires forall i :: 0 <= i < |receiveBuffers| ==> |receiveBuffers[i]| >= 2
      modifies this`receiveBuffers, this`packetBuffers, this`eventCounter
      ensures more == !stopping && (stopping ==> output == [] && Now([]) == old(Now([])))
      ensures !stopping ==> packetBuffers == receiveBuffers == []
      ensures !stopping ==> expectedPacketNumber == old(expectedPacketNumber) && eventCounter == old(eventCounter) + |output|
      ensures !stopping ==> |output| == (if old(packetBuffers + receiveBuffers) == [] then 0 else 1)
      ensures output != [] && !failed ==> var packets := old(packetBuffers + receiveBuffers);
        HoldsPayload(output[0].data[..], Payload(packets, IsText(TypeOf(packets))))
    {
      more, output, failed := !stopping, [], false;
      if stopping { return; }
      TakeBuffers();
      output, failed := EmitFragment(garbage);
    }
  }
}
