/** Packets over a WebSocket (transport/transport.go): `Conn.Write` sends each packet as one binary
    message, `Conn.Read` delivers the next binary message into the caller's buffer. */
module Transport {
  import opened Sequences

  newtype byte = x: int | 0 <= x < 256

  /** The data frames of section 5.6 of RFC 6455. */
  datatype Message = Binary(data: seq<byte>) | Text(data: seq<byte>)

  datatype WireError = ClosedNetwork | Broken
  datatype IoError = Eof | Other(cause: WireError)

  function WrapEof(e: WireError): IoError { if e == ClosedNetwork then Eof else Other(e) }

  function Min(a: nat, b: nat): nat { if a < b then a else b }

  function SkipText(messages: seq<Message>): seq<Message> {
    if messages == [] || messages[0].Binary? then messages else SkipText(messages[1..])
  }

  function AsBinary(packets: seq<seq<byte>>): (messages: seq<Message>)
    ensures |messages| == |packets|
    ensures forall k :: 0 <= k < |packets| ==> messages[k] == Binary(packets[k])
  {
    seq(|packets|, k requires 0 <= k < |packets| => Binary(packets[k]))
  }

  /** One direction of a connection: messages in flight, how many more writes it takes, and the
      error it reports after that or once drained. */
  class Wire {
    var messages: seq<Message>
    var room: nat
    var error: WireError

    constructor (room: nat, error: WireError)
      ensures messages == [] && this.room == room && this.error == error
    {
      this.messages, this.room, this.error := [], room, error;
    }

    method Receive() returns (r: Option<Message>)
      modifies `messages
      ensures old(messages) == [] ==> r == None && messages == []
      ensures old(messages) != [] ==> r == Some(old(messages)[0]) && messages == old(messages)[1..]
    {
      if messages == [] { return None; }
      r := Some(messages[0]);
      messages := messages[1..];
    }

    method Send(m: Message) returns (ok: bool)
      modifies `messages, `room
      ensures ok == (old(room) > 0)
      ensures ok ==> messages == old(messages) + [m] && room == old(room) - 1
      ensures !ok ==> messages == old(messages) && room == old(room)
    {
      ok := room > 0;
      if ok { messages, room := messages + [m], room - 1; }
    }
  }

  lemma AsBinaryMore(packets: seq<seq<byte>>, i: nat)
    requires i < |packets|
    ensures AsBinary(packets[..i + 1]) == AsBinary(packets[..i]) + [Binary(packets[i])]
  {
  }

  function Packets(bufs: seq<array<byte>>, offset: nat): (packets: seq<seq<byte>>)
    requires forall b <- bufs :: offset <= b.Length
    reads bufs
    ensures |packets| == |bufs|
    ensures forall k :: 0 <= k < |bufs| ==> packets[k] == bufs[k][offset..]
  {
    if bufs == [] then [] else [bufs[0][offset..]] + Packets(bufs[1..], offset)
  }

  class Conn {
    const inbound: Wire
    const outbound: Wire

    constructor (inbound: Wire, outbound: Wire)
      ensures this.inbound == inbound && this.outbound == outbound
    {
      this.inbound, this.outbound := inbound, outbound;
    }

    method Read(bufs: seq<array<byte>>, sizes: array<int>, offset: nat) returns (n: int, err: Option<IoError>)
      requires bufs != [] ==> sizes.Length > 0 && offset <= bufs[0].Length
      modifies inbound`messages, sizes, if bufs == [] then {} else {bufs[0]}
      ensures bufs == [] ==> n == 0 && err == None && inbound.messages == old(inbound.messages)
      ensures bufs != [] && SkipText(old(inbound.messages)) == [] ==>
                n == 0 && err == Some(WrapEof(inbound.error)) && inbound.messages == [] &&
                bufs[0][..] == old(bufs[0][..])
      ensures err.Some? && inbound.error == ClosedNetwork ==> err == Some(Eof)
      ensures err.Some? && inbound.error != ClosedNetwork ==> err == Some(Other(inbound.error))
      ensures n == 0 ==> sizes[..] == old(sizes[..])
      ensures bufs != [] && SkipText(old(inbound.messages)) != [] ==>
                var rest := SkipText(old(inbound.messages));
                var size := Min(|rest[0].data|, bufs[0].Length - offset);
                && n == 1 && err == None && inbound.messages == rest[1..]
                && sizes[..] == [size] + old(sizes[1..])
                && bufs[0][..] == old(bufs[0][..offset]) + rest[0].data[..size] + old(bufs[0][offset + size..])
      ensures bufs != [] ==>
                inbound.messages == Do(OnlyWire(old(inbound.messages)), ReadInto(bufs[0].Length - offset)).wire
    {
      if |bufs| < 1 {
        return 0, None;
      }
      while true
        invariant SkipText(inbound.messages) == SkipText(old(inbound.messages))
        invariant sizes[..] == old(sizes[..]) && bufs[0][..] == old(bufs[0][..])
        decreases |inbound.messages|
      {
        var received := inbound.Receive();
        if received.None? {
          return 0, Some(WrapEof(inbound.error));
        }
        var message := received.value;
        if !message.Binary? {
          continue;
        }
        var size := Min(|message.data|, bufs[0].Length - offset);
        forall k | 0 <= k < size {
          bufs[0][offset + k] := message.data[k];
        }
        sizes[0] := size;
        return 1, None;
      }
    }

    method Write(bufs: seq<array<byte>>, offset: nat) returns (n: int, err: Option<IoError>)
      requires forall b <- bufs :: offset <= b.Length
      modifies outbound`messages, outbound`room
      ensures n == Min(|bufs|, old(outbound.room)) && outbound.room == old(outbound.room) - n
      ensures err == if n == |bufs| then None else Some(WrapEof(outbound.error))
      ensures err.Some? && outbound.error == ClosedNetwork ==> err == Some(Eof)
      ensures err.Some? && outbound.error != ClosedNetwork ==> err == Some(Other(outbound.error))
      ensures outbound.messages == old(outbound.messages) + AsBinary(old(Packets(bufs, offset))[..n])
      ensures outbound.messages ==
              Do(OnlyWire(old(outbound.messages)), WriteBatch(old(Packets(bufs, offset)), old(outbound.room))).wire
    {
      ghost var packets := Packets(bufs, offset);
      for i := 0 to |bufs|
        invariant outbound.room == old(outbound.room) - i
        invariant forall k :: 0 <= k < |bufs| ==> packets[k] == bufs[k][offset..]
        invariant outbound.messages == old(outbound.messages) + AsBinary(packets[..i])
      {
        var packet := bufs[i][offset..];
        var ok := outbound.Send(Binary(packet));
        if !ok {
          return i, Some(WrapEof(outbound.error));
        }
        AsBinaryMore(packets, i);
      }
      assert packets[..|bufs|] == packets;
      return |bufs|, None;
    }
  }

  // ---- the FIFO that the two ends implement ----

  /** A wire with the packets its writer sent and what its reader received, with the room each
      read had. */
  datatype Link = Link(wire: seq<Message>, written: seq<seq<byte>>, received: seq<seq<byte>>, rooms: seq<nat>)

  datatype Step =
    | WriteBatch(packets: seq<seq<byte>>, room: nat)   // `Conn.Write`, failing after `room` packets
    | TextArrives(data: seq<byte>)                     // the peer sends something that is no packet
    | ReadInto(room: nat)                              // `Conn.Read` into a buffer with that much room

  function Do(l: Link, s: Step): Link {
    match s
    case WriteBatch(packets, room) =>
      var n := Min(|packets|, room);
      l.(wire := l.wire + AsBinary(packets[..n]), written := l.written + packets[..n])
    case TextArrives(data) => l.(wire := l.wire + [Text(data)])
    case ReadInto(room) =>
      var rest := SkipText(l.wire);
      if rest == [] then l.(wire := [])
      else l.(wire := rest[1..],
              received := l.received + [rest[0].data[..Min(|rest[0].data|, room)]],
              rooms := l.rooms + [room])
  }

  function OnlyWire(messages: seq<Message>): Link { Link(messages, [], [], []) }

  function After(l: Link, steps: seq<Step>): Link
    decreases |steps|
  {
    if steps == [] then l else After(Do(l, steps[0]), steps[1..])
  }

  predicate IsBinary(m: Message) { m.Binary? }

  /** What is still in flight is what was written and not yet received, in order and whole. */
  ghost predicate Fifo(l: Link) {
    && |l.rooms| == |l.received| <= |l.written|
    && Filter(IsBinary, l.wire) == AsBinary(l.written[|l.received|..])
    && forall k :: 0 <= k < |l.received| ==>
         l.received[k] == l.written[k][..Min(|l.written[k]|, l.rooms[k])]
  }

  lemma {:induction false} SkipTextFilter(messages: seq<Message>)
    ensures Filter(IsBinary, SkipText(messages)) == Filter(IsBinary, messages)
    ensures SkipText(messages) != [] ==>
              SkipText(messages)[0].Binary? &&
              Filter(IsBinary, messages) == [SkipText(messages)[0]] + Filter(IsBinary, SkipText(messages)[1..])
  {
    if messages != [] && !messages[0].Binary? { SkipTextFilter(messages[1..]); }
  }

  lemma {:induction false} AllBinary(packets: seq<seq<byte>>)
    ensures Filter(IsBinary, AsBinary(packets)) == AsBinary(packets)
  {
    if packets != [] {
      assert AsBinary(packets)[1..] == AsBinary(packets[1..]);
      AllBinary(packets[1..]);
    }
  }

  lemma FifoWrite(l: Link, sent: seq<seq<byte>>)
    requires Fifo(l)
    ensures Fifo(l.(wire := l.wire + AsBinary(sent), written := l.written + sent))
  {
    var m := |l.received|;
    FilterConcat(IsBinary, l.wire, AsBinary(sent));
    AllBinary(sent);
    assert (l.written + sent)[m..] == l.written[m..] + sent;
    AsBinaryConcat(l.written[m..], sent);
    assert forall k :: 0 <= k < m ==> (l.written + sent)[k] == l.written[k];
  }

  lemma AsBinaryConcat(a: seq<seq<byte>>, b: seq<seq<byte>>)
    ensures AsBinary(a + b) == AsBinary(a) + AsBinary(b)
  {
  }

  /** The first message on the wire is the first packet in flight, and the others follow it. */
  lemma FirstInFlight(l: Link)
    requires Fifo(l) && SkipText(l.wire) != []
    ensures var m, rest := |l.received|, SkipText(l.wire);
            m < |l.written| && rest[0] == Binary(l.written[m]) &&
            Filter(IsBinary, rest[1..]) == AsBinary(l.written[m + 1..])
  {
    var rest, flight := SkipText(l.wire), l.written[|l.received|..];
    SkipTextFilter(l.wire);
    var others := Filter(IsBinary, rest[1..]);
    assert AsBinary(flight) == [rest[0]] + others;
    assert |flight| == 1 + |others|;
    assert flight[1..] == l.written[|l.received| + 1..];
    assert AsBinary(flight)[1..] == others;
    assert AsBinary(flight[1..]) == AsBinary(flight)[1..];
  }

  lemma FifoRead(l: Link, room: nat)
    requires Fifo(l)
    ensures Fifo(Do(l, ReadInto(room)))
  {
    if SkipText(l.wire) == [] {
      SkipTextFilter(l.wire);
    } else {
      FirstInFlight(l);
      FifoReceives(l, room);
    }
  }

  lemma FifoReceives(l: Link, room: nat)
    requires Fifo(l) && |l.received| < |l.written| && SkipText(l.wire) != []
    requires SkipText(l.wire)[0] == Binary(l.written[|l.received|])
    requires Filter(IsBinary, SkipText(l.wire)[1..]) == AsBinary(l.written[|l.received| + 1..])
    ensures Fifo(Do(l, ReadInto(room)))
  {
    var m, l' := |l.received|, Do(l, ReadInto(room));
    forall k | 0 <= k <= m ensures l'.received[k] == l'.written[k][..Min(|l'.written[k]|, l'.rooms[k])] {
      if k < m { assert l'.received[k] == l.received[k] && l'.rooms[k] == l.rooms[k]; }
    }
  }

  lemma FifoStep(l: Link, s: Step)
    requires Fifo(l)
    ensures Fifo(Do(l, s))
  {
    match s {
      case WriteBatch(packets, room) => FifoWrite(l, packets[..Min(|packets|, room)]);
      case TextArrives(data) => FilterAppend(IsBinary, l.wire, Text(data));
      case ReadInto(room) => FifoRead(l, room);
    }
  }

  lemma {:induction false} FifoRun(l: Link, steps: seq<Step>)
    requires Fifo(l)
    ensures Fifo(After(l, steps))
    decreases |steps|
  {
    if steps != [] {
      FifoStep(l, steps[0]);
      FifoRun(Do(l, steps[0]), steps[1..]);
    }
  }

  /** However writes, reads and foreign text messages interleave, packet k received is packet k
      written, cut only to the room its reader had, and no packet is lost, merged or repeated. */
  lemma TransportIsFifo(steps: seq<Step>)
    ensures var l := After(Link([], [], [], []), steps);
            && |l.received| == |l.rooms| <= |l.written|
            && (forall k :: 0 <= k < |l.received| ==>
                  l.received[k] == l.written[k][..Min(|l.written[k]|, l.rooms[k])])
            && Filter(IsBinary, l.wire) == AsBinary(l.written[|l.received|..])
  {
    FifoRun(Link([], [], [], []), steps);
  }
}
