/** The multiplayer match record, whose later fields depend on earlier ones. */
module MatchRecord {
  import opened Wrappers
  import opened Bytes
  import opened Primitives

  const SLOTS: nat := 16

  /** A slot as the writer sees it. `playerId` is `s.player.id`, absent when `s.player is None`. */
  datatype WireSlot = WireSlot(status: int, team: int, playerId: Option<int>, mods: int)

  /** A match as the writer sees it. */
  datatype WireMatch = WireMatch(
    id: int, inProgress: bool, mods: int, name: bytes, passwd: bytes,
    mapName: bytes, mapId: int, mapMd5: bytes, slots: seq<WireSlot>,
    hostId: int, mode: int, winCondition: int, teamType: int, freemods: bool, seed: int)

  /** What a reader gets: ids only of slots with a player, slot mods only under freemods. */
  datatype MultiplayerMatch = MultiplayerMatch(
    id: int, inProgress: bool, powerplay: int, mods: int, name: bytes, passwd: bytes,
    mapName: bytes, mapId: int, mapMd5: bytes,
    slotStatuses: seq<int>, slotTeams: seq<int>, slotIds: seq<int>,
    hostId: int, mode: int, winCondition: int, teamType: int, freemods: bool,
    slotMods: seq<int>, seed: int)

  /** `status & 0b01111100 != 0`, for the unsigned byte and its signed reading alike. */
  predicate HasPlayer(status: int) {
    status / 4 % 32 != 0
  }

  predicate IsByte(x: int) {
    0 <= x < 256
  }

  predicate FitsUnsigned(x: int, len: nat) {
    0 <= x < Capacity(len)
  }

  // ---------------------------------------------------------------- writing

  predicate SlotEncodable(s: WireSlot, freemods: bool) {
    && IsByte(s.status) && IsByte(s.team)
    && (HasPlayer(s.status) ==> s.playerId.Some? && FitsUnsigned(s.playerId.value, 4))
    && (freemods ==> FitsUnsigned(s.mods, 4))
  }

  predicate SlotsEncodable(slots: seq<WireSlot>, freemods: bool) {
    forall i :: 0 <= i < |slots| ==> SlotEncodable(slots[i], freemods)
  }

  /** The writer finishes: no integer is out of range and its assertion on players holds. */
  predicate Encodable(m: WireMatch) {
    && FitsUnsigned(m.id, 2) && FitsUnsigned(m.mods, 4) && FitsSigned(m.mapId, 4)
    && |m.slots| == SLOTS && SlotsEncodable(m.slots, m.freemods)
    && FitsUnsigned(m.hostId, 4) && IsByte(m.mode) && IsByte(m.winCondition) && IsByte(m.teamType)
    && FitsUnsigned(m.seed, 4)
  }

  function Flag(b: bool): byte {
    if b then 1 else 0
  }

  function PasswordField(passwd: bytes, sendPw: bool): bytes {
    if passwd == [] then [0] else if sendPw then EncodeString(passwd) else [0x0b, 0]
  }

  function StatusBytes(slots: seq<WireSlot>): (r: bytes)
    requires SlotsEncodable(slots, false)
    ensures |r| == |slots| && forall i :: 0 <= i < |r| ==> r[i] == slots[i].status
  {
    if slots == [] then [] else
      var b: byte := slots[0].status;
      [b] + StatusBytes(slots[1..])
  }

  function TeamBytes(slots: seq<WireSlot>): (r: bytes)
    requires SlotsEncodable(slots, false)
    ensures |r| == |slots| && forall i :: 0 <= i < |r| ==> r[i] == slots[i].team
  {
    if slots == [] then [] else
      var b: byte := slots[0].team;
      [b] + TeamBytes(slots[1..])
  }

  function IdBytes(s: WireSlot): bytes
    requires SlotEncodable(s, false)
  {
    if HasPlayer(s.status) then ToLE(s.playerId.value, 4) else []
  }

  function IdsBytes(slots: seq<WireSlot>): bytes
    requires SlotsEncodable(slots, false)
  {
    if slots == [] then [] else IdsBytes(slots[..|slots| - 1]) + IdBytes(slots[|slots| - 1])
  }

  function SlotModsBytes(slots: seq<WireSlot>): bytes
    requires SlotsEncodable(slots, true)
  {
    if slots == [] then [] else SlotModsBytes(slots[..|slots| - 1]) + ToLE(slots[|slots| - 1].mods, 4)
  }

  /** The fields before the slots. */
  function Head(m: WireMatch, sendPw: bool): bytes
    requires Encodable(m)
  {
    Left8(ToLE(m.id, 2), [Flag(m.inProgress), 0], ToLE(m.mods, 4), EncodeString(m.name),
          PasswordField(m.passwd, sendPw), EncodeString(m.mapName), SignedToLE(m.mapId, 4), EncodeString(m.mapMd5))
  }

  /** The fields from the host on. */
  function Tail(m: WireMatch): bytes
    requires Encodable(m)
  {
    Left4(ToLE(m.hostId, 4), [m.mode, m.winCondition, m.teamType, Flag(m.freemods)],
          if m.freemods then SlotModsBytes(m.slots) else [], ToLE(m.seed, 4))
  }

  function EncodeMatch(m: WireMatch, sendPw: bool): bytes
    requires Encodable(m)
  {
    Left4(Head(m, sendPw), StatusBytes(m.slots), TeamBytes(m.slots), IdsBytes(m.slots)) + Tail(m)
  }

  function Left4(a: bytes, b: bytes, c: bytes, d: bytes): bytes {
    a + b + c + d
  }

  function Left8(a: bytes, b: bytes, c: bytes, d: bytes, e: bytes, f: bytes, g: bytes, h: bytes): bytes {
    Left4(a, b, c, d) + e + f + g + h
  }

  /** The record's fields in the order of the wire. */
  lemma RecordLayout(m: WireMatch, sendPw: bool)
    requires Encodable(m)
    ensures EncodeMatch(m, sendPw) ==
      ToLE(m.id, 2) + [if m.inProgress then 1 else 0, 0] + ToLE(m.mods, 4)
      + EncodeString(m.name)
      + (if m.passwd != [] && !sendPw then [11, 0] else EncodeString(m.passwd))
      + EncodeString(m.mapName) + SignedToLE(m.mapId, 4) + EncodeString(m.mapMd5)
      + StatusBytes(m.slots) + TeamBytes(m.slots) + IdsBytes(m.slots)
      + (ToLE(m.hostId, 4) + [m.mode, m.winCondition, m.teamType, if m.freemods then 1 else 0]
         + (if m.freemods then SlotModsBytes(m.slots) else []) + ToLE(m.seed, 4))
  {
  }

  lemma Reassociate4(a: bytes, b: bytes, c: bytes, d: bytes, rest: bytes)
    ensures Left4(a, b, c, d) + rest == a + (b + (c + (d + rest)))
  {
  }

  lemma Reassociate8(a: bytes, b: bytes, c: bytes, d: bytes, e: bytes, f: bytes, g: bytes, h: bytes, rest: bytes)
    ensures Left8(a, b, c, d, e, f, g, h) + rest == a + (b + (c + (d + (e + (f + (g + (h + rest)))))))
  {
    var x := Left4(a, b, c, d);
    Reassociate4(x + e, f, g, h, rest);
    Reassociate4(a, b, c, d, e + (f + (g + (h + rest))));
    assert (x + e) + (f + (g + (h + rest))) == x + (e + (f + (g + (h + rest))));
    assert Left8(a, b, c, d, e, f, g, h) == Left4(x + e, f, g, h);
  }

  /** `write_match`: each field is appended to what is already written; `None` stands for
      OverflowError, struct.error or AssertionError. */
  method WriteMatch(m: WireMatch, sendPw: bool) returns (ret: Option<bytes>)
    requires |m.slots| == SLOTS
    ensures ret == if Encodable(m) then Some(EncodeMatch(m, sendPw)) else None
  {
    var out :- WriteHead(m, sendPw);
    var statuses :- WriteBytes(seq(SLOTS, i requires 0 <= i < SLOTS => m.slots[i].status));
    var teams :- WriteBytes(seq(SLOTS, i requires 0 <= i < SLOTS => m.slots[i].team));
    assert forall i :: 0 <= i < SLOTS ==> m.slots[i].status == statuses[i] && m.slots[i].team == teams[i];
    var ids :- WriteIds(m.slots);
    var tail :- WriteTail(m);
    assert statuses == StatusBytes(m.slots);
    assert teams == TeamBytes(m.slots);
    ret := Some(Left4(out, statuses, teams, ids) + tail);
  }

  /** `ret.extend(xs)`, which raises on anything but a byte. */
  method WriteBytes(xs: seq<int>) returns (ret: Option<bytes>)
    ensures ret.Some? <==> forall i :: 0 <= i < |xs| ==> IsByte(xs[i])
    ensures ret.Some? ==> ret.value == xs
  {
    var out: bytes := [];
    for i := 0 to |xs|
      invariant |out| == i && forall j :: 0 <= j < i ==> IsByte(xs[j]) && out[j] == xs[j]
    {
      if !IsByte(xs[i]) {
        return None;
      }
      out := out + [xs[i]];
    }
    ret := Some(out);
  }

  method WriteHead(m: WireMatch, sendPw: bool) returns (ret: Option<bytes>)
    ensures ret.Some? <==> FitsUnsigned(m.id, 2) && FitsUnsigned(m.mods, 4) && FitsSigned(m.mapId, 4)
    ensures ret.Some? ==>
      ret.value == Left8(ToLE(m.id, 2), [Flag(m.inProgress), 0], ToLE(m.mods, 4), EncodeString(m.name),
                         PasswordField(m.passwd, sendPw), EncodeString(m.mapName), SignedToLE(m.mapId, 4),
                         EncodeString(m.mapMd5))
  {
    if !FitsUnsigned(m.id, 2) || !FitsUnsigned(m.mods, 4) {
      return None;
    }
    var out: bytes := ToLE(m.id, 2) + [Flag(m.inProgress), 0] + ToLE(m.mods, 4);
    var name := WriteString(m.name);
    out := out + name;
    if m.passwd != [] {
      if sendPw {
        var passwd := WriteString(m.passwd);
        out := out + passwd;
      } else {
        out := out + [0x0b, 0];
      }
    } else {
      out := out + [0];
    }
    var mapName := WriteString(m.mapName);
    out := out + mapName;
    if !FitsSigned(m.mapId, 4) {
      return None;
    }
    out := out + SignedToLE(m.mapId, 4);
    var mapMd5 := WriteString(m.mapMd5);
    ret := Some(out + mapMd5);
  }

  method WriteIds(slots: seq<WireSlot>) returns (ret: Option<bytes>)
    requires forall i :: 0 <= i < |slots| ==> IsByte(slots[i].status) && IsByte(slots[i].team)
    ensures ret == if SlotsEncodable(slots, false) then Some(IdsBytes(slots)) else None
  {
    var out: bytes := [];
    for i := 0 to |slots|
      invariant SlotsEncodable(slots[..i], false) && out == IdsBytes(slots[..i])
    {
      if HasPlayer(slots[i].status) {
        if slots[i].playerId.None? || !FitsUnsigned(slots[i].playerId.value, 4) {
          return None;
        }
        out := out + ToLE(slots[i].playerId.value, 4);
      }
      IdsStep(slots, i);
    }
    assert slots[..|slots|] == slots;
    ret := Some(out);
  }

  lemma IdsStep(slots: seq<WireSlot>, i: nat)
    requires i < |slots| && SlotsEncodable(slots[..i], false) && SlotEncodable(slots[i], false)
    ensures SlotsEncodable(slots[..i + 1], false) && IdsBytes(slots[..i + 1]) == IdsBytes(slots[..i]) + IdBytes(slots[i])
  {
    assert slots[..i + 1][..i] == slots[..i];
  }

  method WriteSlotMods(slots: seq<WireSlot>) returns (ret: Option<bytes>)
    requires SlotsEncodable(slots, false)
    ensures ret == if SlotsEncodable(slots, true) then Some(SlotModsBytes(slots)) else None
  {
    var out: bytes := [];
    for i := 0 to |slots|
      invariant SlotsEncodable(slots[..i], true) && out == SlotModsBytes(slots[..i])
    {
      if !FitsUnsigned(slots[i].mods, 4) {
        return None;
      }
      out := out + ToLE(slots[i].mods, 4);
      assert slots[..i + 1][..i] == slots[..i] && SlotEncodable(slots[i], true);
    }
    assert slots[..|slots|] == slots;
    ret := Some(out);
  }

  method WriteTail(m: WireMatch) returns (ret: Option<bytes>)
    requires FitsUnsigned(m.id, 2) && FitsUnsigned(m.mods, 4) && FitsSigned(m.mapId, 4)
    requires |m.slots| == SLOTS && SlotsEncodable(m.slots, false)
    ensures ret == if Encodable(m) then Some(Tail(m)) else None
  {
    if !(FitsUnsigned(m.hostId, 4) && IsByte(m.mode) && IsByte(m.winCondition) && IsByte(m.teamType)) {
      return None;
    }
    var flags: bytes := [m.mode, m.winCondition, m.teamType, Flag(m.freemods)];
    var mods := [];
    if m.freemods {
      mods :- WriteSlotMods(m.slots);
    }
    if !FitsUnsigned(m.seed, 4) {
      return None;
    }
    ret := Some(ToLE(m.hostId, 4) + flags + mods + ToLE(m.seed, 4));
  }

  // ---------------------------------------------------------------- reading

  function ParseI8s(s: bytes, count: nat): (r: Parse<seq<int>>)
    ensures r.Parsed? ==> |r.value| == count
  {
    if count == 0 then Parsed([], s)
    else
      var (x, s1) :- ParseI8(s);
      var (xs, s2) :- ParseI8s(s1, count - 1);
      Parsed([x] + xs, s2)
  }

  /** One id for each status that has a player. */
  function ParseIds(s: bytes, statuses: seq<int>): (seq<int>, bytes)
    decreases |statuses|
  {
    if statuses == [] then ([], s)
    else if !HasPlayer(statuses[0]) then ParseIds(s, statuses[1..])
    else
      var (x, s1) := ParseSigned(s, 4);
      var (xs, s2) := ParseIds(s1, statuses[1..]);
      ([x] + xs, s2)
  }

  function ParseI32s(s: bytes, count: nat): (seq<int>, bytes)
    decreases count
  {
    if count == 0 then ([], s)
    else
      var (x, s1) := ParseSigned(s, 4);
      var (xs, s2) := ParseI32s(s1, count - 1);
      ([x] + xs, s2)
  }

  datatype Header = Header(id: int, inProgress: bool, powerplay: int, mods: int, name: bytes, passwd: bytes,
                           mapName: bytes, mapId: int, mapMd5: bytes)

  function ParseHeader(s: bytes): Parse<Header> {
    var (id, s) := ParseSigned(s, 2);
    var (inProgress, s) :- ParseI8(s);
    var (powerplay, s) :- ParseI8(s);
    var (mods, s) := ParseSigned(s, 4);
    var (name, s) :- ParseString(s);
    var (passwd, s) :- ParseString(s);
    var (mapName, s) :- ParseString(s);
    var (mapId, s) := ParseSigned(s, 4);
    var (mapMd5, s) :- ParseString(s);
    Parsed(Header(id, inProgress == 1, powerplay, mods, name, passwd, mapName, mapId, mapMd5), s)
  }

  datatype Footer = Footer(hostId: int, mode: int, winCondition: int, teamType: int, freemods: bool,
                           slotMods: seq<int>, seed: int)

  function ParseFooter(s: bytes): Parse<Footer> {
    var (hostId, s) := ParseSigned(s, 4);
    var (mode, s) :- ParseI8(s);
    var (winCondition, s) :- ParseI8(s);
    var (teamType, s) :- ParseI8(s);
    var (freemods, s) :- ParseI8(s);
    var (slotMods, s) := ParseI32s(s, if freemods == 1 then SLOTS else 0);
    var (seed, s) := ParseSigned(s, 4);
    Parsed(Footer(hostId, mode, winCondition, teamType, freemods == 1, slotMods, seed), s)
  }

  function ParseMatch(s: bytes): Parse<MultiplayerMatch> {
    var (h, s) :- ParseHeader(s);
    var (statuses, s) :- ParseI8s(s, SLOTS);
    var (teams, s) :- ParseI8s(s, SLOTS);
    var (ids, s) := ParseIds(s, statuses);
    var (f, s) :- ParseFooter(s);
    Parsed(Assemble(h, statuses, teams, ids, f), s)
  }

  function Assemble(h: Header, statuses: seq<int>, teams: seq<int>, ids: seq<int>, f: Footer): MultiplayerMatch {
    MultiplayerMatch(h.id, h.inProgress, h.powerplay, h.mods, h.name, h.passwd, h.mapName, h.mapId, h.mapMd5,
                     statuses, teams, ids, f.hostId, f.mode, f.winCondition, f.teamType, f.freemods, f.slotMods, f.seed)
  }

  /** `read_match`: each part is read off the reader's own view in turn. */
  method ReadMatch(reader: BanchoPacketReader) returns (r: Option<MultiplayerMatch>)
    modifies reader`bodyView
    ensures reader.Agrees(r, ParseMatch(old(reader.bodyView)))
  {
    var header :- ReadHeader(reader);
    var statuses :- ReadI8s(reader, SLOTS);
    var teams :- ReadI8s(reader, SLOTS);
    var ids := ReadIds(reader, statuses);
    var footer :- ReadFooter(reader);
    r := Some(Assemble(header, statuses, teams, ids, footer));
  }

  method ReadHeader(reader: BanchoPacketReader) returns (r: Option<Header>)
    modifies reader`bodyView
    ensures reader.Agrees(r, ParseHeader(old(reader.bodyView)))
  {
    var id := reader.ReadSigned(2);
    var inProgress :- reader.ReadI8();
    var powerplay :- reader.ReadI8();
    var mods := reader.ReadSigned(4);
    var name :- reader.ReadString();
    var passwd :- reader.ReadString();
    var mapName :- reader.ReadString();
    var mapId := reader.ReadSigned(4);
    var mapMd5 :- reader.ReadString();
    r := Some(Header(id, inProgress == 1, powerplay, mods, name, passwd, mapName, mapId, mapMd5));
  }

  method ReadFooter(reader: BanchoPacketReader) returns (r: Option<Footer>)
    modifies reader`bodyView
    ensures reader.Agrees(r, ParseFooter(old(reader.bodyView)))
  {
    var hostId := reader.ReadSigned(4);
    var mode :- reader.ReadI8();
    var winCondition :- reader.ReadI8();
    var teamType :- reader.ReadI8();
    var freemods :- reader.ReadI8();
    var slotMods := [];
    if freemods == 1 {
      slotMods := ReadI32s(reader, SLOTS);
    }
    var seed := reader.ReadSigned(4);
    r := Some(Footer(hostId, mode, winCondition, teamType, freemods == 1, slotMods, seed));
  }

  lemma {:induction false} I8sSnoc(s: bytes, count: nat)
    ensures ParseI8s(s, count + 1) ==
      match ParseI8s(s, count)
      case Raised => Raised
      case Parsed(xs, rest) =>
        match ParseI8(rest)
        case Raised => Raised
        case Parsed(x, rest') => Parsed(xs + [x], rest')
    decreases count
  {
    if count > 0 && ParseI8(s).Parsed? {
      var Parsed(first, rest) := ParseI8(s);
      I8sSnoc(rest, count - 1);
      if ParseI8s(rest, count).Parsed? {
        var Parsed(xs, rest') := ParseI8s(rest, count - 1);
        assert [first] + (xs + [ParseI8(rest').value]) == [first] + xs + [ParseI8(rest').value];
      }
    } else if count == 0 && ParseI8(s).Parsed? {
      var x := ParseI8(s).value;
      assert [x] + [] == [] + [x];
    }
  }

  lemma {:induction false} I8sStayRaised(s: bytes, fewer: nat, count: nat)
    requires fewer <= count
    ensures ParseI8s(s, fewer).Raised? ==> ParseI8s(s, count).Raised?
    decreases count
  {
    if fewer < count {
      I8sStayRaised(s, fewer, count - 1);
      I8sSnoc(s, count - 1);
    }
  }

  lemma {:induction false} IdsSnoc(s: bytes, statuses: seq<int>, last: int)
    ensures ParseIds(s, statuses + [last]) ==
      var (xs, rest) := ParseIds(s, statuses);
      if HasPlayer(last) then (xs + [ParseSigned(rest, 4).0], ParseSigned(rest, 4).1) else (xs, rest)
    decreases |statuses|
  {
    if statuses == [] {
      assert statuses + [last] == [last] && [last][1..] == [];
      var x := ParseSigned(s, 4).0;
      assert [x] + [] == [] + [x];
    } else {
      assert (statuses + [last])[1..] == statuses[1..] + [last];
      var (x, s') := ParseSigned(s, 4);
      IdsSnoc(if HasPlayer(statuses[0]) then s' else s, statuses[1..], last);
      var (xs, rest) := ParseIds(s', statuses[1..]);
      assert [x] + (xs + [ParseSigned(rest, 4).0]) == [x] + xs + [ParseSigned(rest, 4).0];
    }
  }

  lemma {:induction false} I32sSnoc(s: bytes, count: nat)
    ensures ParseI32s(s, count + 1) ==
      var (xs, rest) := ParseI32s(s, count);
      (xs + [ParseSigned(rest, 4).0], ParseSigned(rest, 4).1)
    decreases count
  {
    if count > 0 {
      var (x, s') := ParseSigned(s, 4);
      I32sSnoc(s', count - 1);
      var (xs, rest) := ParseI32s(s', count - 1);
      assert [x] + (xs + [ParseSigned(rest, 4).0]) == [x] + xs + [ParseSigned(rest, 4).0];
    } else {
      var x := ParseSigned(s, 4).0;
      assert [x] + [] == [] + [x];
    }
  }

  method ReadI8s(reader: BanchoPacketReader, count: nat) returns (r: Option<seq<int>>)
    modifies reader`bodyView
    ensures reader.Agrees(r, ParseI8s(old(reader.bodyView), count))
  {
    var xs: seq<int> := [];
    for i := 0 to count
      invariant ParseI8s(old(reader.bodyView), i) == Parsed(xs, reader.bodyView)
    {
      I8sSnoc(old(reader.bodyView), i);
      I8sStayRaised(old(reader.bodyView), i + 1, count);
      var x :- reader.ReadI8();
      xs := xs + [x];
    }
    r := Some(xs);
  }

  method ReadIds(reader: BanchoPacketReader, statuses: seq<int>) returns (ids: seq<int>)
    modifies reader`bodyView
    ensures (ids, reader.bodyView) == ParseIds(old(reader.bodyView), statuses)
  {
    ids := [];
    for i := 0 to |statuses|
      invariant (ids, reader.bodyView) == ParseIds(old(reader.bodyView), statuses[..i])
    {
      IdsSnoc(old(reader.bodyView), statuses[..i], statuses[i]);
      assert statuses[..i + 1] == statuses[..i] + [statuses[i]];
      if HasPlayer(statuses[i]) {
        var x := reader.ReadSigned(4);
        ids := ids + [x];
      }
    }
    assert statuses[..|statuses|] == statuses;
  }

  method ReadI32s(reader: BanchoPacketReader, count: nat) returns (xs: seq<int>)
    modifies reader`bodyView
    ensures (xs, reader.bodyView) == ParseI32s(old(reader.bodyView), count)
  {
    xs := [];
    for i := 0 to count
      invariant (xs, reader.bodyView) == ParseI32s(old(reader.bodyView), i)
    {
      I32sSnoc(old(reader.bodyView), i);
      var x := reader.ReadSigned(4);
      xs := xs + [x];
    }
  }

  // ---------------------------------------------------------------- round trip

  function IdsOf(slots: seq<WireSlot>): seq<int>
    requires SlotsEncodable(slots, false)
  {
    if slots == [] then []
    else IdsOf(slots[..|slots| - 1]) + IdOf(slots[|slots| - 1])
  }

  function IdOf(s: WireSlot): seq<int>
    requires SlotEncodable(s, false)
  {
    if HasPlayer(s.status) then [Reinterpret(s.playerId.value, 4)] else []
  }

  function ModsOf(slots: seq<WireSlot>): seq<int>
    requires SlotsEncodable(slots, true)
  {
    seq(|slots|, i requires 0 <= i < |slots| => Reinterpret(slots[i].mods, 4))
  }

  function SignedBytes(bs: bytes): (r: seq<int>)
    ensures |r| == |bs|
  {
    seq(|bs|, i requires 0 <= i < |bs| => SignedByte(bs[i]))
  }

  function ReceivedHeader(m: WireMatch, sendPw: bool): Header
    requires Encodable(m)
  {
    Header(Reinterpret(m.id, 2), m.inProgress, 0, Reinterpret(m.mods, 4), m.name, if sendPw then m.passwd else [],
           m.mapName, m.mapId, m.mapMd5)
  }

  function ReceivedFooter(m: WireMatch): Footer
    requires Encodable(m)
  {
    Footer(Reinterpret(m.hostId, 4), SignedByte(m.mode), SignedByte(m.winCondition), SignedByte(m.teamType),
           m.freemods, if m.freemods then ModsOf(m.slots) else [], Reinterpret(m.seed, 4))
  }

  /** The record a reader gets for `m`: every unsigned field read back as signed. */
  function Received(m: WireMatch, sendPw: bool): MultiplayerMatch
    requires Encodable(m)
  {
    Assemble(ReceivedHeader(m, sendPw), SignedBytes(StatusBytes(m.slots)), SignedBytes(TeamBytes(m.slots)),
             IdsOf(m.slots), ReceivedFooter(m))
  }

  lemma {:induction false} I8sRoundTrip(bs: bytes, rest: bytes)
    ensures ParseI8s(bs + rest, |bs|) == Parsed(SignedBytes(bs), rest)
  {
    if bs == [] {
      assert bs + rest == rest;
    } else {
      assert (bs + rest)[1..] == bs[1..] + rest;
      I8sRoundTrip(bs[1..], rest);
      assert SignedBytes(bs) == [SignedByte(bs[0])] + SignedBytes(bs[1..]);
    }
  }

  lemma IdRoundTrip(slot: WireSlot, rest: bytes)
    requires SlotEncodable(slot, false)
    ensures HasPlayer(SignedByte(slot.status)) <==> HasPlayer(slot.status)
    ensures HasPlayer(slot.status) ==> ParseSigned(IdBytes(slot) + rest, 4) == (IdOf(slot)[0], rest)
    ensures !HasPlayer(slot.status) ==> IdBytes(slot) + rest == rest
  {
    if HasPlayer(slot.status) {
      UnsignedReadSigned(slot.playerId.value, 4, rest);
    }
  }

  lemma {:induction false} IdsRoundTrip(slots: seq<WireSlot>, statuses: seq<int>, rest: bytes)
    requires SlotsEncodable(slots, false)
    requires |statuses| == |slots| && forall i :: 0 <= i < |slots| ==> statuses[i] == SignedByte(slots[i].status)
    ensures ParseIds(IdsBytes(slots) + rest, statuses) == (IdsOf(slots), rest)
  {
    if slots == [] {
      assert IdsBytes(slots) + rest == rest;
    } else {
      var n := |slots| - 1;
      var front, last := slots[..n], slots[n];
      IdsRoundTrip(front, statuses[..n], IdBytes(last) + rest);
      assert IdsBytes(slots) + rest == IdsBytes(front) + (IdBytes(last) + rest);
      assert statuses == statuses[..n] + [statuses[n]];
      IdsSnoc(IdsBytes(slots) + rest, statuses[..n], statuses[n]);
      IdRoundTrip(last, rest);
      assert IdsOf(slots) == if HasPlayer(last.status) then IdsOf(front) + [IdOf(last)[0]] else IdsOf(front);
    }
  }

  lemma {:induction false} SlotModsRoundTrip(slots: seq<WireSlot>, rest: bytes)
    requires SlotsEncodable(slots, true)
    ensures ParseI32s(SlotModsBytes(slots) + rest, |slots|) ==
            (ModsOf(slots), rest)
  {
    if slots == [] {
      assert SlotModsBytes(slots) + rest == rest;
    } else {
      var n := |slots| - 1;
      var front, last := slots[..n], slots[n];
      SlotModsRoundTrip(front, ToLE(last.mods, 4) + rest);
      assert SlotModsBytes(slots) + rest == SlotModsBytes(front) + (ToLE(last.mods, 4) + rest);
      I32sSnoc(SlotModsBytes(slots) + rest, n);
      UnsignedReadSigned(last.mods, 4, rest);
      assert ModsOf(slots) == ModsOf(front) + [Reinterpret(last.mods, 4)];
    }
  }

  lemma TwoBytes(a: byte, b: byte, rest: bytes)
    ensures ParseI8([a, b] + rest) == Parsed(SignedByte(a), [b] + rest)
    ensures ParseI8([b] + rest) == Parsed(SignedByte(b), rest)
  {
    assert ([a, b] + rest)[1..] == [b] + rest;
    assert ([b] + rest)[1..] == rest;
  }

  lemma TailRoundTrip(m: WireMatch, rest: bytes)
    requires Encodable(m)
    ensures ParseFooter(Tail(m) + rest) == Parsed(ReceivedFooter(m), rest)
  {
    var flags: bytes := [m.mode, m.winCondition, m.teamType, Flag(m.freemods)];
    var mods := if m.freemods then SlotModsBytes(m.slots) else [];
    var s3 := ToLE(m.seed, 4) + rest;
    var s2 := mods + s3;
    Reassociate4(ToLE(m.hostId, 4), flags, mods, ToLE(m.seed, 4), rest);
    UnsignedReadSigned(m.hostId, 4, flags + s2);
    assert flags + s2 == [flags[0], flags[1]] + ([flags[2], flags[3]] + s2);
    TwoBytes(flags[0], flags[1], [flags[2], flags[3]] + s2);
    TwoBytes(flags[2], flags[3], s2);
    if m.freemods {
      SlotModsRoundTrip(m.slots, s3);
    } else {
      assert s2 == s3;
    }
    UnsignedReadSigned(m.seed, 4, rest);
  }

  lemma PasswordRoundTrip(passwd: bytes, sendPw: bool, rest: bytes)
    ensures ParseString(PasswordField(passwd, sendPw) + rest) == Parsed(if sendPw then passwd else [], rest)
  {
    if passwd == [] {
      StringRoundTrip([], rest);
    } else if sendPw {
      StringRoundTrip(passwd, rest);
    } else {
      HiddenStringReadsEmpty(rest);
    }
  }

  lemma HeadRoundTrip(m: WireMatch, sendPw: bool, rest: bytes)
    requires Encodable(m)
    ensures ParseHeader(Head(m, sendPw) + rest) == Parsed(ReceivedHeader(m, sendPw), rest)
  {
    var s7 := EncodeString(m.mapMd5) + rest;
    var s6 := SignedToLE(m.mapId, 4) + s7;
    var s5 := EncodeString(m.mapName) + s6;
    var s4 := PasswordField(m.passwd, sendPw) + s5;
    var s3 := EncodeString(m.name) + s4;
    var s2 := ToLE(m.mods, 4) + s3;
    Reassociate8(ToLE(m.id, 2), [Flag(m.inProgress), 0], ToLE(m.mods, 4), EncodeString(m.name),
                 PasswordField(m.passwd, sendPw), EncodeString(m.mapName), SignedToLE(m.mapId, 4),
                 EncodeString(m.mapMd5), rest);
    UnsignedReadSigned(m.id, 2, [Flag(m.inProgress), 0] + s2);
    TwoBytes(Flag(m.inProgress), 0, s2);
    UnsignedReadSigned(m.mods, 4, s3);
    StringRoundTrip(m.name, s4);
    PasswordRoundTrip(m.passwd, sendPw, s5);
    StringRoundTrip(m.mapName, s6);
    SignedRoundTrip(m.mapId, 4, s7);
    StringRoundTrip(m.mapMd5, rest);
  }

  /** Decode after encode, for every record the writer accepts, with the trailing bytes untouched. */
  lemma MatchRoundTrip(m: WireMatch, sendPw: bool, rest: bytes)
    requires Encodable(m)
    ensures ParseMatch(EncodeMatch(m, sendPw) + rest) == Parsed(Received(m, sendPw), rest)
  {
    var head, statuses, teams, ids := Head(m, sendPw), StatusBytes(m.slots), TeamBytes(m.slots), IdsBytes(m.slots);
    var s4 := Tail(m) + rest;
    EncodedParts(m, sendPw, rest);
    HeadRoundTrip(m, sendPw, statuses + (teams + (ids + s4)));
    I8sRoundTrip(statuses, teams + (ids + s4));
    I8sRoundTrip(teams, ids + s4);
    IdsRoundTrip(m.slots, SignedBytes(statuses), s4);
    TailRoundTrip(m, rest);
  }

  lemma EncodedParts(m: WireMatch, sendPw: bool, rest: bytes)
    requires Encodable(m)
    ensures EncodeMatch(m, sendPw) + rest ==
      Head(m, sendPw) + (StatusBytes(m.slots) + (TeamBytes(m.slots) + (IdsBytes(m.slots) + (Tail(m) + rest))))
  {
    var head, statuses, teams, ids := Head(m, sendPw), StatusBytes(m.slots), TeamBytes(m.slots), IdsBytes(m.slots);
    assert EncodeMatch(m, sendPw) + rest == Left4(head, statuses, teams, ids) + (Tail(m) + rest);
    Reassociate4(head, statuses, teams, ids, Tail(m) + rest);
  }

  // ---------------------------------------------------------------- exactness

  /** The ids of the players in slots whose status has a player, in slot order. */
  function PlayerIds(slots: seq<WireSlot>): seq<int>
    requires SlotsEncodable(slots, false)
  {
    if slots == [] then []
    else
      var last := slots[|slots| - 1];
      PlayerIds(slots[..|slots| - 1]) + if HasPlayer(last.status) then [last.playerId.value] else []
  }

  /** The reader's record carries exactly the writer's fields. */
  predicate SameFields(m: WireMatch, r: MultiplayerMatch)
    requires Encodable(m)
  {
    && r.id == m.id && r.inProgress == m.inProgress && r.mods == m.mods && r.name == m.name
    && r.passwd == m.passwd && r.mapName == m.mapName && r.mapId == m.mapId && r.mapMd5 == m.mapMd5
    && |r.slotStatuses| == |r.slotTeams| == SLOTS
    && (forall i :: 0 <= i < SLOTS ==> r.slotStatuses[i] == m.slots[i].status && r.slotTeams[i] == m.slots[i].team)
    && r.slotIds == PlayerIds(m.slots)
    && r.hostId == m.hostId && r.mode == m.mode && r.winCondition == m.winCondition && r.teamType == m.teamType
    && r.freemods == m.freemods
    && (if m.freemods
        then |r.slotMods| == SLOTS && forall i :: 0 <= i < SLOTS ==> r.slotMods[i] == m.slots[i].mods
        else r.slotMods == [])
    && r.seed == m.seed
  }

  /** Every written value also fits the signed type it is read back with. */
  predicate FitsReader(m: WireMatch)
    requires Encodable(m)
  {
    && FitsSigned(m.id, 2) && FitsSigned(m.mods, 4) && FitsSigned(m.hostId, 4) && FitsSigned(m.seed, 4)
    && m.mode < 128 && m.winCondition < 128 && m.teamType < 128
    && IdsFit(m.slots)
    && forall i :: 0 <= i < SLOTS ==>
         && m.slots[i].status < 128 && m.slots[i].team < 128
         && (m.freemods ==> FitsSigned(m.slots[i].mods, 4))
  }

  predicate IdsFit(slots: seq<WireSlot>)
    requires SlotsEncodable(slots, false)
  {
    forall i :: 0 <= i < |slots| && HasPlayer(slots[i].status) ==> FitsSigned(slots[i].playerId.value, 4)
  }

  lemma {:induction false} IdsExact(slots: seq<WireSlot>)
    requires SlotsEncodable(slots, false)
    ensures |IdsOf(slots)| == |PlayerIds(slots)|
    ensures IdsOf(slots) == PlayerIds(slots) <==> IdsFit(slots)
  {
    if slots != [] {
      var n := |slots| - 1;
      var front, last := slots[..n], slots[n];
      IdsExact(front);
      var a, b := IdsOf(slots), PlayerIds(slots);
      assert a[..|IdsOf(front)|] == IdsOf(front) && b[..|IdsOf(front)|] == PlayerIds(front);
      if HasPlayer(last.status) {
        assert a == b <==> IdsOf(front) == PlayerIds(front) && IdOf(last) == [last.playerId.value];
      }
    }
  }

  lemma FittingIsReceived(m: WireMatch)
    requires Encodable(m) && FitsReader(m)
    ensures SameFields(m, Received(m, true))
  {
    IdsExact(m.slots);
  }

  lemma ReceivedFits(m: WireMatch)
    requires Encodable(m) && SameFields(m, Received(m, true))
    ensures FitsReader(m)
  {
    IdsExact(m.slots);
    var r := Received(m, true);
    forall i | 0 <= i < SLOTS
      ensures m.slots[i].status < 128 && m.slots[i].team < 128 && (m.freemods ==> FitsSigned(m.slots[i].mods, 4))
    {
      assert r.slotStatuses[i] == m.slots[i].status && r.slotTeams[i] == m.slots[i].team;
      assert m.freemods ==> r.slotMods[i] == m.slots[i].mods;
    }
  }

  /** With the password sent, the reader gets the writer's fields if and only if they fit its types. */
  lemma RecordIsExact(m: WireMatch)
    requires Encodable(m)
    ensures SameFields(m, Received(m, true)) <==> FitsReader(m)
  {
    if FitsReader(m) {
      FittingIsReceived(m);
    }
    if SameFields(m, Received(m, true)) {
      ReceivedFits(m);
    }
  }
}
