/** Packet framing: what `write` produces, what the reader's header loop makes of a request body,
    and the per-player queue between them. */
module Packets {
  import opened Wrappers
  import opened Bytes
  import opened Primitives
  import opened MatchRecord

  /** The values of the ClientPackets enumeration; its constructor raises ValueError on any other. */
  const CLIENT_PACKETS: set<int> := {
    0, 1, 2, 3, 4, 16, 17, 18, 20, 21, 25, 29, 30, 31, 32, 33, 38, 39, 40, 41, 44, 47, 49, 51, 52, 54, 55, 56,
    59, 60, 63, 68, 70, 73, 74, 77, 78, 79, 82, 84, 85, 87, 90, 93, 97, 98, 99, 108, 109}

  const HEADER_LENGTH: nat := 7

  datatype Packet = Packet(id: nat, payload: bytes)

  predicate Sendable(p: Packet) {
    p.id < Capacity(2) && |p.payload| < Capacity(4)
  }

  function Frame(p: Packet): (r: bytes)
    requires Sendable(p)
    ensures |r| == HEADER_LENGTH + |p.payload|
  {
    ToLE(p.id, 2) + [0] + ToLE(|p.payload|, 4) + p.payload
  }

  /** Two bytes of packet id, one of padding and four of size, least significant first; then the payload. */
  lemma FrameLayout(p: Packet)
    requires Sendable(p)
    ensures var r := Frame(p);
      && Little(r[0], r[1]) == p.id && r[2] == 0
      && Little(r[3], Little(r[4], Little(r[5], r[6]))) == |p.payload|
      && r[7..] == p.payload
  {
    var r := Frame(p);
    var id, size := ToLE(p.id, 2), ToLE(|p.payload|, 4);
    FromLEOfToLE(p.id, 2);
    FromLEOfToLE(|p.payload|, 4);
    assert r[..2] == id && r[3..7] == size;
    SpelledOut(id);
    SpelledOut(size);
    assert FromLE(id[1..]) == id[1] by {
      SpelledOut(id[1..]);
    }
    assert size[1..][1..] == size[2..] && size[2..][1..] == size[3..];
    SpelledOut(size[1..]);
    SpelledOut(size[2..]);
    SpelledOut(size[3..]);
  }

  function Little(low: int, high: int): int {
    low + 256 * high
  }

  lemma SpelledOut(s: bytes)
    requires s != []
    ensures FromLE(s) == s[0] + 256 * FromLE(s[1..]) && (|s| == 1 ==> FromLE(s) == s[0])
  {
  }

  /** `b"".join(...)` */
  function Join(parts: seq<bytes>): bytes {
    if parts == [] then [] else parts[0] + Join(parts[1..])
  }

  function Frames(packets: seq<Packet>): seq<bytes>
    requires forall i :: 0 <= i < |packets| ==> Sendable(packets[i])
  {
    if packets == [] then [] else [Frame(packets[0])] + Frames(packets[1..])
  }

  // ---------------------------------------------------------------- writing

  datatype Arg =
    | Raw(data: bytes)
    | Unsigned(value: int, len: nat)
    | Signed(value: int, len: nat)
    | Text(data: bytes)
    | Message(sender: bytes, text: bytes, recipient: bytes, senderId: int)
    | MatchState(m: WireMatch, sendPw: bool)

  predicate ArgEncodable(a: Arg) {
    match a
    case Unsigned(value, len) => FitsUnsigned(value, len)
    case Signed(value, len) => FitsSigned(value, len)
    case Message(_, _, _, senderId) => FitsSigned(senderId, 4)
    case MatchState(m, _) => Encodable(m)
    case _ => true
  }

  function EncodeArg(a: Arg): bytes
    requires ArgEncodable(a)
  {
    match a
    case Raw(data) => data
    case Unsigned(value, len) => ToLE(value, len)
    case Signed(value, len) => SignedToLE(value, len)
    case Text(data) => EncodeString(data)
    case Message(sender, text, recipient, senderId) =>
      EncodeString(sender) + EncodeString(text) + EncodeString(recipient) + SignedToLE(senderId, 4)
    case MatchState(m, sendPw) => EncodeMatch(m, sendPw)
  }

  function Payload(args: seq<Arg>): bytes
    requires forall i :: 0 <= i < |args| ==> ArgEncodable(args[i])
  {
    if args == [] then [] else Payload(args[..|args| - 1]) + EncodeArg(args[|args| - 1])
  }

  method WriteArg(a: Arg) returns (r: Option<bytes>)
    requires a.MatchState? ==> |a.m.slots| == SLOTS
    ensures r == if ArgEncodable(a) then Some(EncodeArg(a)) else None
  {
    match a {
      case MatchState(m, sendPw) =>
        r := WriteMatch(m, sendPw);
      case Text(data) =>
        var s := WriteString(data);
        r := Some(s);
      case Message(sender, text, recipient, senderId) =>
        var a := WriteString(sender);
        var b := WriteString(text);
        var c := WriteString(recipient);
        r := if FitsSigned(senderId, 4) then Some(a + b + c + SignedToLE(senderId, 4)) else None;
      case _ =>
        r := if ArgEncodable(a) then Some(EncodeArg(a)) else None;
    }
  }

  method WriteArgs(args: seq<Arg>) returns (r: Option<bytes>)
    requires forall i :: 0 <= i < |args| && args[i].MatchState? ==> |args[i].m.slots| == SLOTS
    ensures r.Some? <==> forall i :: 0 <= i < |args| ==> ArgEncodable(args[i])
    ensures r.Some? ==> r.value == Payload(args)
  {
    var out: bytes := [];
    for i := 0 to |args|
      invariant forall j :: 0 <= j < i ==> ArgEncodable(args[j])
      invariant out == Payload(args[..i])
    {
      var part :- WriteArg(args[i]);
      PayloadStep(args, i);
      out := out + part;
    }
    assert args[..|args|] == args;
    r := Some(out);
  }

  lemma PayloadStep(args: seq<Arg>, i: nat)
    requires i < |args| && forall j :: 0 <= j <= i ==> ArgEncodable(args[j])
    ensures Payload(args[..i + 1]) == Payload(args[..i]) + EncodeArg(args[i])
  {
    assert args[..i + 1][..i] == args[..i];
  }

  /** `write`: the size goes in at index 3 once the arguments are in place. */
  method Write(packid: int, args: seq<Arg>) returns (r: Option<bytes>)
    requires forall i :: 0 <= i < |args| && args[i].MatchState? ==> |args[i].m.slots| == SLOTS
    ensures r.Some? <==>
      && FitsUnsigned(packid, 2) && (forall i :: 0 <= i < |args| ==> ArgEncodable(args[i]))
      && |Payload(args)| < Capacity(4)
    ensures r.Some? ==> r.value == Frame(Packet(packid, Payload(args)))
  {
    if !FitsUnsigned(packid, 2) {
      return None;
    }
    var data :- WriteArgs(args);
    var ret := ToLE(packid, 2) + [0] + data;
    if !FitsUnsigned(|ret| - 3, 4) {
      return None;
    }
    SizeGoesIn(packid, data);
    r := Some(ret[..3] + ToLE(|ret| - 3, 4) + ret[3..]);
  }

  lemma SizeGoesIn(packid: nat, data: bytes)
    requires FitsUnsigned(packid, 2) && |data| < Capacity(4)
    ensures var ret := ToLE(packid, 2) + [0] + data;
      |ret| - 3 == |data| && ret[..3] + ToLE(|data|, 4) + ret[3..] == Frame(Packet(packid, data))
  {
    var ret := ToLE(packid, 2) + [0] + data;
    assert ret[..3] == ToLE(packid, 2) + [0] && ret[3..] == data;
  }

  // ---------------------------------------------------------------- reading

  /** What `__next__` does: stop the iteration, raise, or hand over a packet's type and length. */
  datatype Event = Stop | Raises | Handle(id: nat, len: nat)

  function Next(body: bytes, packetMap: set<int>): (r: (Event, bytes))
    ensures r.0.Handle? ==> |r.1| < |body|
    decreases |body|
  {
    if body == [] then (Stop, body)
    else if |body| < HEADER_LENGTH then (Raises, body)
    else
      var id, len, rest := FromLE(body[..2]), FromLE(body[3..7]), body[7..];
      if id !in CLIENT_PACKETS then (Raises, rest)
      else if id in packetMap then (Handle(id, len), rest)
      else Next(Drop(rest, len), packetMap)
  }

  method NextPacket(reader: BanchoPacketReader) returns (event: Event)
    modifies reader
    ensures (event, reader.bodyView) == Next(old(reader.bodyView), reader.packetMap)
    ensures event.Handle? ==> reader.currentLen == event.len
  {
    while reader.bodyView != []
      invariant Next(old(reader.bodyView), reader.packetMap) == Next(reader.bodyView, reader.packetMap)
      decreases |reader.bodyView|
    {
      if |reader.bodyView| < HEADER_LENGTH {
        return Raises;
      }
      var id, len := FromLE(reader.bodyView[..2]), FromLE(reader.bodyView[3..7]);
      reader.bodyView := reader.bodyView[7..];
      if id !in CLIENT_PACKETS {
        return Raises;
      }
      if id in reader.packetMap {
        reader.currentLen := len;
        return Handle(id, len);
      }
      if len != 0 {
        reader.bodyView := Drop(reader.bodyView, len);
      }
    }
    event := Stop;
  }

  /** Packets handed to handlers in order, and whether the loop ended in an exception. */
  datatype Delivery = Delivery(packets: seq<Packet>, raised: bool)

  /** The request loop with handlers that consume their packet. */
  function Deliver(body: bytes, packetMap: set<int>): Delivery
    decreases |body|
  {
    var (event, rest) := Next(body, packetMap);
    match event
    case Stop => Delivery([], false)
    case Raises => Delivery([], true)
    case Handle(id, len) =>
      After([Packet(id, Take(rest, len))], Deliver(Drop(rest, len), packetMap))
  }

  function After(packets: seq<Packet>, later: Delivery): Delivery {
    Delivery(packets + later.packets, later.raised)
  }

  lemma AfterOneMore(packets: seq<Packet>, p: Packet, later: Delivery)
    ensures After(packets, After([p], later)) == After(packets + [p], later)
  {
  }

  method ReadAll(reader: BanchoPacketReader) returns (d: Delivery)
    modifies reader
    ensures d == Deliver(old(reader.bodyView), reader.packetMap)
  {
    var packets := [];
    while true
      invariant Deliver(old(reader.bodyView), reader.packetMap) ==
        After(packets, Deliver(reader.bodyView, reader.packetMap))
      decreases |reader.bodyView|
    {
      var event := NextPacket(reader);
      match event {
        case Stop => return Delivery(packets, false);
        case Raises => return Delivery(packets, true);
        case Handle(id, len) =>
          var payload := reader.ReadRaw();
          AfterOneMore(packets, Packet(id, payload), Deliver(reader.bodyView, reader.packetMap));
          packets := packets + [Packet(id, payload)];
      }
    }
  }

  /** What a stream of whole packets should give: the mapped ones in order, up to the first
      packet whose id is in no enumeration. */
  function Expected(packets: seq<Packet>, packetMap: set<int>): Delivery {
    if packets == [] then Delivery([], false)
    else if packets[0].id !in CLIENT_PACKETS then Delivery([], true)
    else
      var later := Expected(packets[1..], packetMap);
      if packets[0].id in packetMap then After([packets[0]], later) else later
  }

  lemma HeaderOfFrame(p: Packet, rest: bytes)
    requires Sendable(p)
    ensures var s := Frame(p) + rest;
      && FromLE(s[..2]) == p.id && FromLE(s[3..7]) == |p.payload|
      && s[7..] == p.payload + rest
      && Take(s[7..], |p.payload|) == p.payload && Drop(s[7..], |p.payload|) == rest
  {
    var s := Frame(p) + rest;
    assert s[..2] == ToLE(p.id, 2) && s[3..7] == ToLE(|p.payload|, 4) && s[7..] == p.payload + rest;
    FromLEOfToLE(p.id, 2);
    FromLEOfToLE(|p.payload|, 4);
    TakeDropOfConcat(p.payload, rest);
  }

  /** Any concatenation of framed packets is split back into them. */
  lemma {:induction false} StreamIsSplit(packets: seq<Packet>, packetMap: set<int>)
    requires forall i :: 0 <= i < |packets| ==> Sendable(packets[i])
    ensures Deliver(Join(Frames(packets)), packetMap) == Expected(packets, packetMap)
  {
    if packets != [] {
      var p, later := packets[0], packets[1..];
      StreamIsSplit(later, packetMap);
      assert Frames(packets)[1..] == Frames(later);
      HeaderOfFrame(p, Join(Frames(later)));
    }
  }

  /** No packet to be handled comes after the first one whose id is unknown, or is it. */
  predicate HandledFirst(packets: seq<Packet>, packetMap: set<int>) {
    forall i, j :: 0 <= i <= j < |packets| && packets[i].id !in CLIENT_PACKETS ==> packets[j].id !in packetMap
  }

  /** The loop raises exactly when some packet's id is unknown, and delivers every packet to be handled
      exactly when none comes after the first such one. What it delivers is the first of them in any case. */
  lemma DeliveredExactly(packets: seq<Packet>, packetMap: set<int>)
    requires forall i :: 0 <= i < |packets| ==> Sendable(packets[i])
    ensures var d := Deliver(Join(Frames(packets)), packetMap);
      && (d.raised <==> exists i :: 0 <= i < |packets| && packets[i].id !in CLIENT_PACKETS)
      && (d.packets == Mapped(packets, packetMap) <==> HandledFirst(packets, packetMap))
      && d.packets <= Mapped(packets, packetMap)
  {
    StreamIsSplit(packets, packetMap);
    RaisedExactly(packets, packetMap);
    MappedExactly(packets, packetMap);
  }

  function Mapped(packets: seq<Packet>, packetMap: set<int>): seq<Packet> {
    if packets == [] then []
    else (if packets[0].id in packetMap then [packets[0]] else []) + Mapped(packets[1..], packetMap)
  }

  lemma {:induction false} RaisedExactly(packets: seq<Packet>, packetMap: set<int>)
    ensures Expected(packets, packetMap).raised <==> exists i :: 0 <= i < |packets| && packets[i].id !in CLIENT_PACKETS
  {
    if packets != [] {
      RaisedExactly(packets[1..], packetMap);
      if i :| 0 <= i < |packets[1..]| && packets[1..][i].id !in CLIENT_PACKETS {
        assert packets[i + 1].id !in CLIENT_PACKETS;
      }
    }
  }

  lemma {:induction false} NoneMapped(packets: seq<Packet>, packetMap: set<int>)
    ensures Mapped(packets, packetMap) == [] <==> forall i :: 0 <= i < |packets| ==> packets[i].id !in packetMap
  {
    if packets != [] {
      NoneMapped(packets[1..], packetMap);
      assert forall i :: 0 <= i < |packets[1..]| ==> packets[1..][i] == packets[i + 1];
      assert packets == [packets[0]] + packets[1..];
    }
  }

  lemma HandledLater(packets: seq<Packet>, packetMap: set<int>)
    requires packets != [] && packets[0].id in CLIENT_PACKETS
    ensures HandledFirst(packets, packetMap) <==> HandledFirst(packets[1..], packetMap)
  {
    var later := packets[1..];
    if HandledFirst(later, packetMap) {
      forall i, j | 0 <= i <= j < |packets| && packets[i].id !in CLIENT_PACKETS
        ensures packets[j].id !in packetMap
      {
        assert later[i - 1].id !in CLIENT_PACKETS && packets[j] == later[j - 1];
      }
    }
  }

  lemma {:induction false} MappedExactly(packets: seq<Packet>, packetMap: set<int>)
    ensures Expected(packets, packetMap).packets == Mapped(packets, packetMap) <==> HandledFirst(packets, packetMap)
    ensures Expected(packets, packetMap).packets <= Mapped(packets, packetMap)
  {
    if packets == [] {
    } else if packets[0].id !in CLIENT_PACKETS {
      NoneMapped(packets, packetMap);
    } else {
      var later := packets[1..];
      MappedExactly(later, packetMap);
      HandledLater(packets, packetMap);
      if packets[0].id in packetMap {
        var got, all := Expected(later, packetMap).packets, Mapped(later, packetMap);
        assert ([packets[0]] + got)[1..] == got && ([packets[0]] + all)[1..] == all;
      }
    }
  }

  // ---------------------------------------------------------------- the queue

  /** The outgoing queue of a player. */
  class PacketQueue {
    var queue: seq<bytes>

    constructor ()
      ensures queue == []
    {
      queue := [];
    }

    method Enqueue(data: bytes)
      modifies this
      ensures queue == Step(old(queue), Put(data)).0
    {
      queue := queue + [data];
    }

    method Dequeue() returns (data: Option<bytes>)
      modifies this
      ensures queue == Step(old(queue), Get).0
      ensures data == if old(queue) == [] then None else Some(Step(old(queue), Get).1)
    {
      if queue != [] {
        data := Some(Join(queue));
        queue := [];
      } else {
        data := None;
      }
    }
  }

  datatype QueueOp = Put(data: bytes) | Get

  /** The queue after one operation and the bytes it sends to the client. */
  function Step(queue: seq<bytes>, op: QueueOp): (seq<bytes>, bytes) {
    match op
    case Put(data) => (queue + [data], [])
    case Get => ([], Join(queue))
  }

  /** The queue after a run and everything sent during it. */
  function Run(queue: seq<bytes>, ops: seq<QueueOp>): (seq<bytes>, bytes)
    decreases |ops|
  {
    if ops == [] then (queue, [])
    else
      var (q, sent) := Step(queue, ops[0]);
      var (q', later) := Run(q, ops[1..]);
      (q', sent + later)
  }

  function Enqueued(ops: seq<QueueOp>): seq<bytes> {
    if ops == [] then [] else (if ops[0].Put? then [ops[0].data] else []) + Enqueued(ops[1..])
  }

  lemma {:induction false} JoinDistributes(a: seq<bytes>, b: seq<bytes>)
    ensures Join(a + b) == Join(a) + Join(b)
  {
    if a == [] {
      assert a + b == b;
    } else {
      assert (a + b)[1..] == a[1..] + b;
      JoinDistributes(a[1..], b);
    }
  }

  /** No byte is lost, repeated or reordered by any run of enqueues and dequeues. */
  lemma {:induction false} QueueConserves(queue: seq<bytes>, ops: seq<QueueOp>)
    ensures var (left, sent) := Run(queue, ops);
      sent + Join(left) == Join(queue) + Join(Enqueued(ops))
    decreases |ops|
  {
    if ops != [] {
      var (q, out) := Step(queue, ops[0]);
      QueueConserves(q, ops[1..]);
      var (left, later) := Run(q, ops[1..]);
      var rest := Enqueued(ops[1..]);
      match ops[0]
      case Put(data) =>
        JoinDistributes(queue, [data]);
        JoinDistributes([data], rest);
        assert Join([data]) == data && [] + later == later;
        assert (Join(queue) + data) + Join(rest) == Join(queue) + (data + Join(rest));
      case Get =>
        assert [] + rest == rest;
        assert (Join(queue) + later) + Join(left) == Join(queue) + (later + Join(left));
    }
  }

  /** Whatever is sent over a run that ends with a dequeue splits into the packets enqueued in it. */
  lemma SentStreamIsSplit(packets: seq<Packet>, ops: seq<QueueOp>, packetMap: set<int>)
    requires forall i :: 0 <= i < |packets| ==> Sendable(packets[i])
    requires Enqueued(ops) == Frames(packets)
    requires Run([], ops).0 == []
    ensures Deliver(Run([], ops).1, packetMap) == Expected(packets, packetMap)
  {
    QueueConserves([], ops);
    var sent := Run([], ops).1;
    assert sent + Join([]) == sent && Join([]) + Join(Frames(packets)) == Join(Frames(packets));
    StreamIsSplit(packets, packetMap);
  }
}
