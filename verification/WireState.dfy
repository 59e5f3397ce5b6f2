/** The record of a live match: the session's invariants are what the record's writer relies on. */
module WireState {
  import opened Wrappers
  import opened Bytes
  import opened Primitives
  import opened Multiplayer
  import opened MatchSafety
  import opened Sessions
  import MatchRecord
  import SeatSafety
  import SessionSafety
  import SessionRuns

  /** The fields of a match that no step of the session looks at. */
  datatype Info = Info(
    id: int, name: bytes, passwd: bytes, mapName: bytes, mapId: int, mapMd5: bytes, mode: int, winCondition: int,
    seed: int)

  function StatusCode(s: SlotStatus): int {
    match s
    case Open => 1
    case Locked => 2
    case NotReady => 4
    case Ready => 8
    case NoMap => 16
    case Playing => 32
    case Complete => 64
    case Quit => 128
  }

  function TeamCode(t: Team): int {
    match t case Neutral => 0 case Blue => 1 case Red => 2
  }

  function TeamTypeCode(t: TeamType): int {
    match t case HeadToHead => 0 case TagCoop => 1 case TeamVs => 2 case TagTeamVs => 3
  }

  function Power2(k: nat): (p: nat)
    ensures p > 0
  {
    if k == 0 then 1 else 2 * Power2(k - 1)
  }

  /** The mods' flags below bit `k` as one integer. */
  function ModsValue(mods: Mods, k: nat): (n: nat)
    ensures n < Power2(k)
  {
    if k == 0 then 0 else ModsValue(mods, k - 1) + if k - 1 in mods then Power2(k - 1) else 0
  }

  /** Mods have 31 flags. */
  const MOD_FLAGS: nat := 31

  lemma ModsFit(mods: Mods)
    ensures 2 * ModsValue(mods, MOD_FLAGS) < Capacity(4)
  {
    assert Power2(8) == 256;
    assert Power2(16) == 256 * Power2(8);
    assert Power2(24) == 256 * Power2(16);
    assert Power2(31) == 128 * Power2(24);
  }

  /** Different mods have different values. */
  lemma {:induction false} ModsValueTellsApart(a: Mods, b: Mods, k: nat)
    requires ModsValue(a, k) == ModsValue(b, k)
    ensures forall i :: 0 <= i < k ==> (i in a <==> i in b)
  {
    if k > 0 {
      assert ModsValue(a, k - 1) < Power2(k - 1) && ModsValue(b, k - 1) < Power2(k - 1);
      ModsValueTellsApart(a, b, k - 1);
    }
  }

  /** Bit `i` of the value is set exactly for mods that have flag `i`. */
  lemma {:induction false} ModsBits(mods: Mods, k: nat, i: nat)
    requires i < k
    ensures ModsValue(mods, k) / Power2(i) % 2 == if i in mods then 1 else 0
  {
    var low := ModsValue(mods, k - 1);
    if i == k - 1 {
      var bit := if i in mods then 1 else 0;
      QuotientIs(ModsValue(mods, k), Power2(i), bit, low);
    } else {
      ModsBits(mods, k - 1, i);
      if k - 1 in mods {
        var q := PowerSplits(k - 1, i);
        MultipleSplits(low, 2 * q, Power2(i));
      }
    }
  }

  /** `Power2(k)` is an even multiple of `Power2(i)`. */
  lemma {:induction false} PowerSplits(k: nat, i: nat) returns (q: nat)
    requires i < k
    ensures Power2(k) == (2 * q) * Power2(i)
  {
    q := 1;
    if i < k - 1 {
      var half := PowerSplits(k - 1, i);
      q := 2 * half;
      Regroup(half, Power2(i));
    }
  }

  lemma Regroup(a: nat, b: nat)
    ensures 2 * ((2 * a) * b) == (2 * (2 * a)) * b
  {
  }

  lemma MultipleSplits(low: nat, q: nat, d: nat)
    requires d > 0 && q % 2 == 0
    ensures (low + q * d) / d % 2 == low / d % 2
  {
    assert low == (low / d) * d + low % d;
    assert (low / d + q) * d == (low / d) * d + q * d;
    QuotientIs(low + q * d, d, low / d + q, low % d);
  }

  function WireSlot(s: SlotV): MatchRecord.WireSlot {
    MatchRecord.WireSlot(StatusCode(s.status), TeamCode(s.team), if s.player == null then None else Some(s.player.id),
                         ModsValue(s.mods, MOD_FLAGS))
  }

  function WireSlots(slots: seq<SlotV>): seq<MatchRecord.WireSlot> {
    seq(|slots|, i requires 0 <= i < |slots| => WireSlot(slots[i]))
  }

  /** The match as the writer sees it. */
  function Wire(v: MatchV, info: Info): MatchRecord.WireMatch {
    MatchRecord.WireMatch(
      info.id, v.inProgress, ModsValue(v.mods, MOD_FLAGS), info.name, info.passwd, info.mapName, info.mapId, info.mapMd5,
      WireSlots(v.slots), v.hostId, info.mode, info.winCondition, TeamTypeCode(v.teamType), v.freemods, info.seed)
  }

  /** Ids are 31-bit numbers, and the rest is in the range of its field. */
  predicate FitsFields(v: MatchV, info: Info) {
    && 0 <= info.id < 0x8000 && FitsSigned(info.mapId, 4) && 0 <= info.mode < 128 && 0 <= info.winCondition < 128
    && 0 <= info.seed < 0x8000_0000 && 0 <= v.hostId < 0x8000_0000
    && forall q <- Occupants(v) :: 0 <= q.id < 0x8000_0000
  }

  lemma Capacities()
    ensures Capacity(2) == 0x1_0000 && Capacity(4) == 0x1_0000_0000
  {
    assert Capacity(1) == 256 && Capacity(2) == 0x1_0000 && Capacity(3) == 0x100_0000;
  }

  /** The writer's test on the status byte is the one the session's invariant speaks of. */
  lemma StatusBits(s: SlotStatus)
    ensures MatchRecord.HasPlayer(StatusCode(s)) <==> HasPlayerBit(s)
  {
  }

  lemma SlotIsWritable(v: MatchV, info: Info, i: nat)
    requires SlotsSound(v) && FitsFields(v, info) && i < |v.slots|
    ensures MatchRecord.SlotEncodable(WireSlot(v.slots[i]), v.freemods)
    ensures HasPlayerBit(v.slots[i].status) ==> FitsSigned(v.slots[i].player.id, 4)
    ensures FitsSigned(ModsValue(v.slots[i].mods, MOD_FLAGS), 4)
  {
    Capacities();
    StatusBits(v.slots[i].status);
    ModsFit(v.slots[i].mods);
  }

  /** Nothing in the writer can raise: its assertion on players holds by the session's invariant. */
  lemma WriterNeverAsserts(v: MatchV, info: Info)
    requires Sound(v) && FitsFields(v, info)
    ensures MatchRecord.Encodable(Wire(v, info))
  {
    Capacities();
    ModsFit(v.mods);
    forall i | 0 <= i < |v.slots|
      ensures MatchRecord.SlotEncodable(Wire(v, info).slots[i], v.freemods)
    {
      SlotIsWritable(v, info, i);
    }
  }


  /** The players of the slots whose status has one, in slot order. */
  function SeatedIds(slots: seq<SlotV>): seq<int>
    requires forall i :: 0 <= i < |slots| && HasPlayerBit(slots[i].status) ==> slots[i].player != null
  {
    if slots == [] then []
    else
      var last := slots[|slots| - 1];
      SeatedIds(slots[..|slots| - 1]) + if HasPlayerBit(last.status) then [last.player.id] else []
  }

  lemma {:induction false} WiredIds(v: MatchV, info: Info, n: nat)
    requires SlotsSound(v) && FitsFields(v, info) && n <= |v.slots|
    ensures MatchRecord.SlotsEncodable(WireSlots(v.slots[..n]), false)
    ensures MatchRecord.IdsFit(WireSlots(v.slots[..n]))
    ensures MatchRecord.PlayerIds(WireSlots(v.slots[..n])) == SeatedIds(v.slots[..n])
    decreases n
  {
    forall i | 0 <= i < n
      ensures MatchRecord.SlotEncodable(WireSlots(v.slots[..n])[i], false)
      ensures MatchRecord.HasPlayer(WireSlots(v.slots[..n])[i].status) ==> FitsSigned(WireSlots(v.slots[..n])[i].playerId.value, 4)
    {
      SlotIsWritable(v, info, i);
      StatusBits(v.slots[i].status);
    }
    if n > 0 {
      WiredIds(v, info, n - 1);
      assert v.slots[..n][..n - 1] == v.slots[..n - 1];
      assert WireSlots(v.slots[..n])[..n - 1] == WireSlots(v.slots[..n - 1]);
      StatusBits(v.slots[n - 1].status);
    }
  }

  /** The rest of the record is the match's own, and its password is only told when it should be. */
  predicate TellsInfo(r: MatchRecord.MultiplayerMatch, v: MatchV, info: Info, sendPw: bool) {
    && r.id == info.id && r.name == info.name && r.passwd == (if sendPw then info.passwd else [])
    && r.mapName == info.mapName && r.mapId == info.mapId && r.mapMd5 == info.mapMd5
    && r.mode == info.mode && r.winCondition == info.winCondition && r.seed == info.seed
    && (r.teamType == 0 <==> v.teamType.HeadToHead?) && (r.teamType == 1 <==> v.teamType.TagCoop?)
    && (r.teamType == 2 <==> v.teamType.TeamVs?) && (r.teamType == 3 <==> v.teamType.TagTeamVs?)
  }

  /** A client that reads the state the server sends of a sound match gets the ids of exactly the players
      in slots whose status has one, in slot order, and whatever follows the record is left unread. */
  lemma StateRoundTrip(v: MatchV, info: Info, sendPw: bool, rest: bytes)
    requires Sound(v) && FitsFields(v, info)
    ensures MatchRecord.Encodable(Wire(v, info))
    ensures var r := MatchRecord.ParseMatch(MatchRecord.EncodeMatch(Wire(v, info), sendPw) + rest);
      && r.Parsed? && r.rest == rest
      && r.value.slotIds == SeatedIds(v.slots) && r.value.hostId == v.hostId && r.value.inProgress == v.inProgress
      && r.value.freemods == v.freemods && r.value.mods == ModsValue(v.mods, 31) && TellsInfo(r.value, v, info, sendPw)
  {
    ModsFit(v.mods);
    WriterNeverAsserts(v, info);
    MatchRecord.MatchRoundTrip(Wire(v, info), sendPw, rest);
    assert v.slots[..|v.slots|] == v.slots;
    WiredIds(v, info, |v.slots|);
    MatchRecord.IdsExact(WireSlots(v.slots));
    Capacities();
  }

  /** In every state the server can get to, whatever clients send, every match can be written. */
  lemma EveryStateIsWritable(w: World, run: seq<Event>, m: Match, info: Info)
    requires SeatSafety.Seated(w) && SeatSafety.FreshRun(w, run)
    requires var w' := SeatSafety.After(w, run); m in w'.ma && FitsFields(w'.ma[m], info)
    ensures MatchRecord.Encodable(Wire(SeatSafety.After(w, run).ma[m], info))
  {
    SeatSafety.RunSeated(w, run);
    WriterNeverAsserts(SeatSafety.After(w, run).ma[m], info);
  }
}
