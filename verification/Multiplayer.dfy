/** Multiplayer matches: the rules of a single match as functions on its state, and the objects
    (slots, matches, players, channels) whose fields the server updates in place. */
module Multiplayer {
  import opened Wrappers

  const SLOTS: nat := 16

  /** `Quit` is declared but never assigned. */
  datatype SlotStatus = Open | Locked | NotReady | Ready | NoMap | Playing | Complete | Quit

  datatype Team = Neutral | Blue | Red

  datatype TeamType = HeadToHead | TagCoop | TeamVs | TagTeamVs

  /** Mod flags by bit number. */
  type Mods = set<nat>

  /** Half time, double time and nightcore. */
  const SPEED_CHANGING_MODS: Mods := {6, 8, 9}

  predicate Teams(t: TeamType) {
    t.TeamVs? || t.TagTeamVs?
  }

  /** `status & 0b01111100 != 0` */
  predicate HasPlayerBit(s: SlotStatus) {
    s in {NotReady, Ready, NoMap, Playing, Complete}
  }

  // ---------------------------------------------------------------- state

  datatype SlotV = SlotV(
    player: Player?, status: SlotStatus, team: Team, mods: Mods, loaded: bool, skipped: bool)

  /** Who a match point goes to. */
  datatype Side = TeamSide(team: Team) | PlayerSide(player: Player)

  /** The scoring of a scrim; `None` among the winners is a tie. */
  datatype Scrim = Scrim(running: bool, points: map<Side, int>, winners: seq<Option<Side>>, winningPts: int)

  datatype MatchV = MatchV(
    slots: seq<SlotV>, hostId: int, referees: set<Player>, mods: Mods, freemods: bool, teamType: TeamType,
    inProgress: bool, starting: Option<Player>, tourneyClients: set<int>, scrim: Scrim)

  const EMPTY_SLOT: SlotV := SlotV(null, Open, Neutral, {}, false, false)

  const NO_SCRIM: Scrim := Scrim(false, map[], [], 0)

  /** What a handler leaves: the match, whether it returned rather than raised, and whether its last act
      is to send the match's state to everyone. */
  datatype Result = Result(m: MatchV, ok: bool, sends: bool)

  function Quiet(m: MatchV): Result {
    Result(m, true, false)
  }

  function Sent(m: MatchV): Result {
    Result(m, true, true)
  }

  function Raise(m: MatchV): Result {
    Result(m, false, false)
  }

  // ---------------------------------------------------------------- lookups

  predicate InRange(m: MatchV, i: int) {
    0 <= i < SLOTS && i < |m.slots|
  }

  predicate Occupies(m: MatchV, i: int, p: Player) {
    0 <= i < |m.slots| && m.slots[i].player == p
  }

  predicate Inside(m: MatchV, p: Player) {
    exists i :: 0 <= i < |m.slots| && Occupies(m, i, p)
  }

  predicate Empty(m: MatchV) {
    forall i :: 0 <= i < |m.slots| ==> m.slots[i].player == null
  }

  /** The first slot at `i` or later that satisfies `f`. */
  function FirstFrom(slots: seq<SlotV>, f: SlotV -> bool, i: nat): (r: Option<nat>)
    requires i <= |slots|
    ensures r.Some? ==> i <= r.value < |slots| && f(slots[r.value]) && forall j :: i <= j < r.value ==> !f(slots[j])
    ensures r.None? ==> forall j :: i <= j < |slots| ==> !f(slots[j])
    decreases |slots| - i
  {
    if i == |slots| then None else if f(slots[i]) then Some(i) else FirstFrom(slots, f, i + 1)
  }

  function GetSlot(m: MatchV, p: Player): (r: Option<nat>)
    ensures r.Some? ==> Occupies(m, r.value, p)
    ensures r.None? ==> !Inside(m, p)
  {
    FirstFrom(m.slots, (s: SlotV) => s.player == p, 0)
  }

  function GetFree(m: MatchV): (r: Option<nat>)
    ensures r.Some? ==> r.value < |m.slots| && m.slots[r.value].status.Open?
    ensures r.None? ==> forall j :: 0 <= j < |m.slots| ==> !m.slots[j].status.Open?
  {
    FirstFrom(m.slots, (s: SlotV) => s.status.Open?, 0)
  }

  function FirstOccupant(m: MatchV): (r: Option<Player>)
    ensures r.Some? ==> Inside(m, r.value)
    ensures r.None? ==> Empty(m)
  {
    match FirstFrom(m.slots, (s: SlotV) => s.player != null, 0)
    case None => None
    case Some(i) =>
      assert Occupies(m, i, m.slots[i].player);
      Some(m.slots[i].player)
  }

  predicate SeatedById(m: MatchV, id: int) {
    exists s <- m.slots :: s.player != null && s.player.id == id
  }

  /** The writer's assertion: a status that has a player means one is there. */
  predicate PlayersThere(m: MatchV) {
    forall i :: 0 <= i < |m.slots| && HasPlayerBit(m.slots[i].status) ==> m.slots[i].player != null
  }

  // ---------------------------------------------------------------- changes to the slots

  function MapSlots(m: MatchV, f: SlotV -> SlotV): (r: MatchV)
    ensures r == m.(slots := r.slots) && |r.slots| == |m.slots|
    ensures forall i :: 0 <= i < |m.slots| ==> r.slots[i] == f(m.slots[i])
  {
    m.(slots := seq(|m.slots|, i requires 0 <= i < |m.slots| => f(m.slots[i])))
  }

  function SetSlot(m: MatchV, i: nat, s: SlotV): MatchV
    requires i < |m.slots|
  {
    m.(slots := m.slots[i := s])
  }

  function SlotReset(status: SlotStatus): SlotV {
    EMPTY_SLOT.(status := status)
  }

  /** `Slot.copy_from`: loaded and skipped stay. */
  function SlotCopied(s: SlotV, other: SlotV): SlotV {
    s.(player := other.player, status := other.status, team := other.team, mods := other.mods)
  }

  /** Takes slot `i`, in team modes on the red side. */
  function Seated(m: MatchV, i: nat, p: Player): MatchV {
    if i >= |m.slots| then m
    else
      var s := m.slots[i];
      SetSlot(m, i, s.(player := p, status := NotReady, team := if Teams(m.teamType) then Red else s.team))
  }

  /** A kicked player's slot stays locked. */
  function Unseated(m: MatchV, i: nat): MatchV
    requires i < |m.slots|
  {
    SetSlot(m, i, SlotReset(if m.slots[i].status.Locked? then Locked else Open))
  }

  function Unreadied(m: MatchV, expected: SlotStatus): MatchV {
    MapSlots(m, (s: SlotV) => SlotUnreadied(s, expected))
  }

  function SlotUnreadied(s: SlotV, expected: SlotStatus): SlotV {
    if s.status == expected then s.(status := NotReady) else s
  }

  function LoadedReset(m: MatchV): MatchV {
    MapSlots(m, (s: SlotV) => s.(loaded := false, skipped := false))
  }

  function TeamsSet(m: MatchV, t: TeamType): MatchV {
    MapSlots(m.(teamType := t), (s: SlotV) => SlotTeamSet(s, t))
  }

  function SlotTeamSet(s: SlotV, t: TeamType): SlotV {
    if s.player != null then s.(team := if Teams(t) then Red else Neutral) else s
  }

  function ModsCleared(m: MatchV): MatchV {
    MapSlots(m, (s: SlotV) => SlotModsSet(s, {}))
  }

  function SlotModsSet(s: SlotV, mods: Mods): SlotV {
    if s.player != null then s.(mods := mods) else s
  }

  function SlotSwitched(s: SlotV, from: SlotStatus, to: SlotStatus): SlotV {
    if s.status == from then s.(status := to) else s
  }

  /** `Match.start` */
  function Started(m: MatchV): MatchV {
    MapSlots(m, SlotStarted).(inProgress := true)
  }

  function SlotStarted(s: SlotV): SlotV {
    if s.player != null && !s.status.NoMap? then s.(status := Playing) else s
  }

  function FreemodsEnabled(m: MatchV): MatchV {
    var m := m.(freemods := true);
    MapSlots(m, (s: SlotV) => SlotModsSet(s, m.mods - SPEED_CHANGING_MODS))
      .(mods := m.mods * SPEED_CHANGING_MODS)
  }

  /** Raises when the host has no slot. */
  function FreemodsDisabled(m: MatchV, host: Player): Result {
    var m := m.(freemods := false);
    match GetSlot(m, host)
    case None => Raise(m)
    case Some(i) =>
      Sent(ModsCleared(m.(mods := m.mods * SPEED_CHANGING_MODS + m.slots[i].mods)))
  }

  // ---------------------------------------------------------------- actions

  datatype Report = IsReady | IsNotReady | LacksMap | HasMap

  function ReportStatus(r: Report): SlotStatus {
    match r
    case IsReady => Ready
    case LacksMap => NoMap
    case _ => NotReady
  }

  datatype StartKind = Now | Force | After(seconds: int) | Cancel

  /** What a player may ask of the match they are in: first the packets, then the `!mp` commands. */
  datatype Action =
    | ChangeSlot(slotId: int)
    | ReportState(report: Report)
    | Lock(slotId: int)
    | ChangeSettings(freemods: bool, clearsMap: bool, teamType: TeamType)
    | StartMatch
    | CompletePlay
    | ChangeMods(mods: Mods)
    | LoadComplete
    | SkipRequest
    | TransferHost(slotId: int)
    | ChangeTeam
    | MpStart(kind: StartKind)
    | MpAbort
    | MpMods(mods: Mods)
    | MpFreemods(on: bool)
    | MpHost(target: Player)
    | MpAddref(target: Player)
    | MpRmref(target: Player)
    | MpLock
    | MpUnlock
    | MpTeams(teamType: TeamType)
    | MpScrim(bestOf: nat)
    | MpEndscrim
    | MpRematch
    | MpPick(mods: Mods)

  /** Packets only the host may send. */
  predicate HostOnly(a: Action) {
    a.Lock? || a.ChangeSettings? || a.StartMatch? || a.TransferHost?
  }

  predicate Command(a: Action) {
    !HostOnly(a) && !a.ChangeSlot? && !a.ReportState? && !a.CompletePlay? && !a.ChangeMods? && !a.LoadComplete?
    && !a.SkipRequest? && !a.ChangeTeam?
  }

  /** The rules of `p`'s action; `host` is null when the lookup of the host raises. `manager` is the
      privilege that lets a player who is no referee use commands. */
  function Act(m: MatchV, p: Player, host: Player?, manager: bool, a: Action): Result
  {
    if HostOnly(a) then ActIfHost(m, p, host, a)
    else if Command(a) then ActIfAllowed(m, p, host, manager, a)
    else ActPacket(m, p, host, a)
  }

  function ActIfHost(m: MatchV, p: Player, host: Player?, a: Action): Result
    requires HostOnly(a)
  {
    if host == null then Raise(m) else if p != host then Quiet(m) else ActAsHost(m, host, a)
  }

  function ActIfAllowed(m: MatchV, p: Player, host: Player?, manager: bool, a: Action): Result
    requires Command(a)
  {
    if host == null then Raise(m)
    else if p !in m.referees + {host} && !manager then Quiet(m)
    else ActOnCommand(m, p, host, a)
  }

  function ActAsHost(m: MatchV, host: Player, a: Action): Result
    requires HostOnly(a)
  {
    match a
    case Lock(i) => ActLock(m, host, i)
    case ChangeSettings(freemods, clearsMap, teamType) => ActSettings(m, host, freemods, clearsMap, teamType)
    case StartMatch => Sent(Started(m))
    case TransferHost(i) => HostGiven(m, i)
  }

  function ActPacket(m: MatchV, p: Player, host: Player?, a: Action): Result
    requires !HostOnly(a) && !Command(a)
  {
    match a
    case ChangeSlot(i) => ActChangeSlot(m, p, i)
    case ReportState(r) => WithOwnSlot(m, p, (s: SlotV) => s.(status := ReportStatus(r)), true)
    case CompletePlay => ActComplete(m, p)
    case ChangeMods(mods) => ActChangeMods(m, p, host, mods)
    case LoadComplete => WithOwnSlot(m, p, (s: SlotV) => s.(loaded := true), false)
    case SkipRequest => WithOwnSlot(m, p, (s: SlotV) => s.(skipped := true), false)
    case ChangeTeam => WithOwnSlot(m, p, (s: SlotV) => s.(team := if s.team.Blue? then Red else Blue), true)
  }

  function ActOnCommand(m: MatchV, p: Player, host: Player, a: Action): Result
    requires Command(a)
  {
    if ModsCommand(a) then ActModsCommand(m, p, host, a)
    else if ScrimCommand(a) then ActScrimCommand(m, p, host, a)
    else ActCommand(m, p, host, a)
  }

  predicate ModsCommand(a: Action) {
    a.MpMods? || a.MpFreemods? || a.MpPick?
  }

  predicate ScrimCommand(a: Action) {
    a.MpScrim? || a.MpEndscrim? || a.MpRematch?
  }

  function ActModsCommand(m: MatchV, p: Player, host: Player, a: Action): Result
    requires ModsCommand(a)
  {
    match a
    case MpMods(mods) => if m.freemods then ActFreeMods(m, p, host, mods) else Sent(m.(mods := mods))
    case MpFreemods(on) => if on then Sent(FreemodsEnabled(m)) else FreemodsDisabled(m, host)
    case MpPick(mods) => Sent(MapPicked(m, mods))
  }

  function ActScrimCommand(m: MatchV, p: Player, host: Player, a: Action): Result
    requires ScrimCommand(a)
  {
    match a
    case MpScrim(n) => Quiet(m.(scrim := ScrimStarted(m.scrim, n)))
    case MpEndscrim => Quiet(m.(scrim := ScrimEnded(m.scrim)))
    case MpRematch => Quiet(if p == host then m.(scrim := Rematched(m.scrim)) else m)
  }

  function ActCommand(m: MatchV, p: Player, host: Player, a: Action): Result
    requires Command(a) && !ModsCommand(a) && !ScrimCommand(a)
  {
    match a
    case MpStart(kind) => ActMpStart(m, p, kind)
    case MpAbort => Aborted(m)
    case MpHost(target) => HostNamed(m, host, target)
    case MpAddref(target) => RefereeAdded(m, host, target)
    case MpRmref(target) => RefereeRemoved(m, host, target)
    case MpLock => Sent(MapSlots(m, (s: SlotV) => SlotSwitched(s, Open, Locked)))
    case MpUnlock => Sent(MapSlots(m, (s: SlotV) => SlotSwitched(s, Locked, Open)))
    case MpTeams(t) => Sent(TeamsCommanded(m, t))
  }

  function HostGiven(m: MatchV, i: int): Result
  {
    if !InRange(m, i) || m.slots[i].player == null then Quiet(m) else Sent(m.(hostId := m.slots[i].player.id))
  }

  function HostNamed(m: MatchV, host: Player, target: Player): Result {
    if target == host || !Inside(m, target) then Quiet(m) else Sent(m.(hostId := target.id))
  }

  function RefereeAdded(m: MatchV, host: Player, target: Player): Result {
    if !Inside(m, target) || target in m.referees + {host} then Quiet(m)
    else Quiet(m.(referees := m.referees + {target}))
  }

  function RefereeRemoved(m: MatchV, host: Player, target: Player): Result {
    if target !in m.referees + {host} || target == host then Quiet(m)
    else Quiet(m.(referees := m.referees - {target}))
  }

  function Aborted(m: MatchV): Result {
    if !m.inProgress then Quiet(m)
    else Sent(LoadedReset(Unreadied(m, Playing)).(inProgress := false))
  }

  function TeamsCommanded(m: MatchV, t: TeamType): MatchV {
    var m := TeamsSet(m, t);
    if m.scrim.running then m.(scrim := ScrimReset(m.scrim)) else m
  }

  /** A pool pick turns freemods off without asking anyone's mods. */
  function MapPicked(m: MatchV, mods: Mods): MatchV {
    (if m.freemods then ModsCleared(m.(freemods := false)) else m).(mods := mods)
  }

  function ActChangeMods(m: MatchV, p: Player, host: Player?, mods: Mods): Result {
    if host == null then Raise(m)
    else if m.freemods then ActFreeMods(m, p, host, mods)
    else if p != host then Quiet(m)
    else Sent(m.(mods := mods))
  }

  /** Handlers that assert the player has a slot and change it. */
  function WithOwnSlot(m: MatchV, p: Player, f: SlotV -> SlotV, sends: bool): Result {
    match GetSlot(m, p)
    case None => Raise(m)
    case Some(i) => Result(SetSlot(m, i, f(m.slots[i])), true, sends)
  }

  function ActChangeSlot(m: MatchV, p: Player, i: int): Result
  {
    if !InRange(m, i) || !m.slots[i].status.Open? then Quiet(m)
    else
      match GetSlot(m, p)
      case None => Raise(m)
      case Some(j) => Sent(SetSlot(SetSlot(m, i, SlotCopied(m.slots[i], m.slots[j])), j, SlotReset(Open)))
  }

  /** A locked slot is reopened even when a kicked player is still in it. */
  function ActLock(m: MatchV, host: Player?, i: int): Result
  {
    if !InRange(m, i) then Quiet(m)
    else if m.slots[i].status.Locked? then Sent(SetSlot(m, i, m.slots[i].(status := Open)))
    else if m.slots[i].player == host then Quiet(m)
    else Sent(SetSlot(m, i, m.slots[i].(status := Locked)))
  }

  function ActSettings(m: MatchV, host: Player, freemods: bool, clearsMap: bool, teamType: TeamType): Result {
    var r := FreemodsChanged(m, host, freemods);
    if r.ok then Sent(SettingsSettled(r.m, clearsMap, teamType)) else r
  }

  function FreemodsChanged(m: MatchV, host: Player, freemods: bool): Result {
    if freemods == m.freemods then Sent(m) else if freemods then Sent(FreemodsEnabled(m)) else FreemodsDisabled(m, host)
  }

  /** Picking a new map unreadies; the team type stays while a scrim runs. */
  function SettingsSettled(m: MatchV, clearsMap: bool, teamType: TeamType): MatchV {
    var m := if clearsMap then Unreadied(m, Ready) else m;
    if m.teamType != teamType && !m.scrim.running then TeamsSet(m, teamType) else m
  }

  predicate NoneWith(m: MatchV, status: SlotStatus) {
    forall i :: 0 <= i < |m.slots| ==> m.slots[i].status != status
  }

  function PlayEnded(m: MatchV): MatchV {
    LoadedReset(Unreadied(m, Complete)).(inProgress := false)
  }

  function ActComplete(m: MatchV, p: Player): Result {
    var r := WithOwnSlot(m, p, (s: SlotV) => s.(status := Complete), true);
    if !r.ok then r else if NoneWith(r.m, Playing) then Sent(PlayEnded(r.m)) else Quiet(r.m)
  }

  /** Under freemods the host sets the match's speed-changing mods, and everyone their slot's others. */
  function ActFreeMods(m: MatchV, p: Player, host: Player?, mods: Mods): Result {
    var m := if p == host then m.(mods := mods * SPEED_CHANGING_MODS) else m;
    WithOwnSlot(m, p, (s: SlotV) => s.(mods := mods - SPEED_CHANGING_MODS), true)
  }

  function ActMpStart(m: MatchV, p: Player, kind: StartKind): Result {
    match kind
    case Now =>
      if m.starting.Some? || !NoneWith(m, NotReady) then Quiet(m)
      else Sent(Started(m))
    case After(seconds) =>
      if m.starting.Some? || !(0 < seconds <= 300) then Quiet(m) else Quiet(m.(starting := Some(p)))
    case Cancel => Quiet(m.(starting := None))
    case Force => Sent(Started(m))
  }

  /** The start timer goes off. */
  function TimerFired(m: MatchV): Result {
    match m.starting
    case None => Quiet(m)
    case Some(p) => if Inside(m, p) then Sent(Started(m.(starting := None))) else Quiet(m.(starting := None))
  }

  // ---------------------------------------------------------------- scrims

  function PointsOf(s: Scrim, side: Side): int {
    if side in s.points then s.points[side] else 0
  }

  function ScrimReset(s: Scrim): Scrim {
    s.(points := map[], winners := [])
  }

  /** The points that win a best of `bestOf`. */
  function WinningPts(bestOf: int): int {
    bestOf / 2 + 1
  }

  /** What `mp_scrim` does with points to win: it starts a scrim, or, when there are none, cancels the
      one that runs. */
  function ScrimSet(s: Scrim, bestOf: int, winningPts: int): Scrim {
    if winningPts != 0 then
      if s.running || bestOf % 2 == 0 then s else s.(running := true, winningPts := winningPts)
    else if s.running then ScrimReset(s).(running := false, winningPts := winningPts)
    else s
  }

  /** `mp_scrim` */
  function ScrimStarted(s: Scrim, bestOf: int): Scrim {
    if 0 <= bestOf < 16 then ScrimSet(s, bestOf, WinningPts(bestOf)) else s
  }

  function Rematched(s: Scrim): Scrim {
    if !s.running then (if s.winningPts == 0 then s else s.(running := true))
    else if s.winners == [] || s.winners[|s.winners| - 1].None? then s
    else
      var last := s.winners[|s.winners| - 1].value;
      s.(points := s.points[last := PointsOf(s, last) - 1], winners := s.winners[..|s.winners| - 1])
  }

  function ScrimEnded(s: Scrim): Scrim {
    if s.running then ScrimReset(s).(running := false) else s
  }

  /** The first of the highest scores, as `max` over the dict in insertion order finds it. */
  function Winner(scores: seq<(Side, int)>): (i: nat)
    requires scores != []
    ensures i < |scores|
    ensures forall j :: 0 <= j < |scores| ==> scores[j].1 <= scores[i].1
    ensures forall j :: 0 <= j < i ==> scores[j].1 < scores[i].1
  {
    var n := |scores| - 1;
    if n == 0 then 0
    else
      var i := Winner(scores[..n]);
      if scores[n].1 > scores[i].1 then n else i
  }

  predicate Tied(scores: seq<(Side, int)>) {
    |scores| > 1 && forall j :: 0 <= j < |scores| ==> scores[j].1 == scores[0].1
  }

  /** `update_matchpoints` on the scores of one play; the second result is false when the winner is not
      of the kind the team type calls for. */
  function PointAwarded(s: Scrim, teamType: TeamType, scores: seq<(Side, int)>): (Scrim, bool) {
    if scores == [] then (s, true)
    else if Tied(scores) then (s.(winners := s.winners + [None]), true)
    else PointGiven(s, teamType, scores[Winner(scores)].0)
  }

  function Counted(s: Scrim, winner: Side): Scrim {
    s.(winners := s.winners + [Some(winner)], points := s.points[winner := PointsOf(s, winner) + 1])
  }

  /** `winner` takes the point, and the match with it when that makes enough of them. */
  function PointGiven(s: Scrim, teamType: TeamType, winner: Side): (Scrim, bool) {
    var s := Counted(s, winner);
    if Teams(teamType) != winner.TeamSide? then (s, false)
    else
      var s := if winner.TeamSide? then LookUp(s, TeamSide(if winner.team.Blue? then Red else Blue)) else s;
      if s.winningPts != 0 && PointsOf(s, winner) == s.winningPts
      then (ScrimReset(s).(running := false), true)
      else (s, true)
  }

  /** Reading a `defaultdict` puts the missing key in it. */
  function LookUp(s: Scrim, side: Side): Scrim {
    s.(points := s.points[side := PointsOf(s, side)])
  }

  // ---------------------------------------------------------------- what a play does to a scrim

  function Tally(s: Scrim, side: Side): int {
    if side in s.points then s.points[side] else 0
  }

  /** A tie: at least two sides, no two of whose scores differ. */
  predicate Level(scores: seq<(Side, int)>) {
    |scores| >= 2 && forall i, j :: 0 <= i < j < |scores| ==> scores[i].1 == scores[j].1
  }

  /** No score is higher, and none before it is as high. */
  predicate Leads(scores: seq<(Side, int)>, w: nat) {
    && w < |scores|
    && (forall j :: 0 <= j < |scores| ==> scores[j].1 <= scores[w].1)
    && (forall j :: 0 <= j < w ==> scores[j].1 != scores[w].1)
  }

  /** `side` gains one point and everyone else keeps theirs. */
  ghost predicate Gains(s: Scrim, side: Side, s': Scrim) {
    && s'.running == s.running && s'.winningPts == s.winningPts && s'.winners == s.winners + [Some(side)]
    && s.points.Keys + {side} <= s'.points.Keys
    && forall x <- s'.points.Keys :: Tally(s', x) == Tally(s, x) + if x == side then 1 else 0
  }

  /** Where the point of one play goes: nowhere without scores, to nobody in a tie, and else to the leader.
      Enough points end the scrim and clear its points; a leader of the wrong kind stops the handler. */
  ghost predicate PointGoes(s: Scrim, teamType: TeamType, scores: seq<(Side, int)>, s': Scrim, ok: bool) {
    if scores == [] then s' == s && ok
    else if Level(scores) then s' == s.(winners := s.winners + [None]) && ok
    else
      exists w: nat :: Leads(scores, w) &&
        var side := scores[w].0;
        && (ok <==> (side.TeamSide? <==> teamType in {TeamVs, TagTeamVs}))
        && if ok && s.winningPts != 0 && Tally(s, side) + 1 == s.winningPts
           then s' == Scrim(false, map[], [], s.winningPts)
           else Gains(s, side, s')
  }

  /** A point is given as it should go. */
  lemma PointAwardedGoes(s: Scrim, teamType: TeamType, scores: seq<(Side, int)>)
    ensures var (s', ok) := PointAwarded(s, teamType, scores);
      PointGoes(s, teamType, scores, s', ok)
  {
    if scores != [] && !Level(scores) {
      var w := Winner(scores);
      assert Leads(scores, w);
      PointGivenGains(s, teamType, scores[w].0);
    }
  }

  lemma PointGivenGains(s: Scrim, teamType: TeamType, side: Side)
    ensures var (s', ok) := PointGiven(s, teamType, side);
      && (ok <==> (side.TeamSide? <==> teamType in {TeamVs, TagTeamVs}))
      && if ok && s.winningPts != 0 && Tally(s, side) + 1 == s.winningPts
         then s' == Scrim(false, map[], [], s.winningPts)
         else Gains(s, side, s')
  {
  }

  // ---------------------------------------------------------------- objects

  /** The real name of a channel. Match and spectator channels are the instanced ones. */
  datatype ChannelName = Lobby | Public(name: string) | Multi(matchId: int) | Spec(userId: int)

  /** Privilege flags by bit number. */
  type Privileges = set<nat>

  const UNRESTRICTED: nat := 0

  class Channel {
    const name: ChannelName
    const readPriv: Privileges
    var players: seq<Player>

    constructor (name: ChannelName, readPriv: Privileges)
      ensures this.name == name && this.readPriv == readPriv && players == []
    {
      this.name, this.readPriv, players := name, readPriv, [];
    }

    predicate Instance() {
      name.Multi? || name.Spec?
    }

    predicate CanRead(priv: Privileges) {
      readPriv == {} || priv * readPriv != {}
    }
  }

  datatype PlayerV = PlayerV(
    priv: Privileges, inLobby: bool, channels: seq<Channel>, spectators: seq<Player>, spectating: Player?,
    currentMatch: Match?)

  class Player {
    const id: int
    var priv: Privileges
    var inLobby: bool
    var channels: seq<Channel>
    var spectators: seq<Player>
    var spectating: Player?
    var currentMatch: Match?

    constructor (id: int, priv: Privileges)
      ensures this.id == id && this.priv == priv && !inLobby && channels == [] && spectators == []
      ensures spectating == null && currentMatch == null
    {
      this.id, this.priv, inLobby, channels, spectators := id, priv, false, [], [];
      spectating, currentMatch := null, null;
    }

    function View(): PlayerV
      reads this
    {
      PlayerV(priv, inLobby, channels, spectators, spectating, currentMatch)
    }
  }

  class Slot {
    ghost const owner: Match
    ghost const index: nat
    var player: Player?
    var status: SlotStatus
    var team: Team
    var mods: Mods
    var loaded: bool
    var skipped: bool

    constructor (ghost owner: Match, ghost index: nat)
      ensures this.owner == owner && this.index == index && View() == EMPTY_SLOT
    {
      this.owner, this.index := owner, index;
      player, status, team, mods, loaded, skipped := null, Open, Neutral, {}, false, false;
    }

    function View(): SlotV
      reads this
    {
      SlotV(player, status, team, mods, loaded, skipped)
    }

    method CopyFrom(other: Slot)
      modifies this
      ensures View() == SlotCopied(old(View()), old(other.View()))
    {
      player, status, team, mods := other.player, other.status, other.team, other.mods;
    }

    method Reset(newStatus: SlotStatus)
      modifies this
      ensures View() == SlotReset(newStatus)
    {
      player, status, team, mods, loaded, skipped := null, newStatus, Neutral, {}, false, false;
    }
  }

  class Match {
    const id: int
    const chat: Channel
    var slots: seq<Slot>
    var hostId: int
    var referees: set<Player>
    var mods: Mods
    var freemods: bool
    var teamType: TeamType
    var inProgress: bool
    var starting: Option<Player>
    var tourneyClients: set<int>
    var scrimming: bool
    var matchPoints: map<Side, int>
    var winners: seq<Option<Side>>
    var winningPts: int

    constructor (id: int, chat: Channel, hostId: int, mods: Mods, freemods: bool, teamType: TeamType)
      ensures this.id == id && this.chat == chat && Valid() && fresh(slots)
      ensures View() == NewMatch(hostId, mods, freemods, teamType)
    {
      this.id, this.chat, this.hostId := id, chat, hostId;
      this.mods, this.freemods, this.teamType := mods, freemods, teamType;
      referees, inProgress, starting, tourneyClients := {}, false, None, {};
      scrimming, matchPoints, winners, winningPts := false, map[], [], 0;
      slots := [];
      new;
      for i := 0 to SLOTS
        invariant |slots| == i && fresh(slots)
        invariant forall j :: 0 <= j < i ==> slots[j].owner == this && slots[j].index == j && slots[j].View() == EMPTY_SLOT
        invariant this.hostId == hostId && this.mods == mods && this.freemods == freemods && this.teamType == teamType
        invariant referees == {} && !inProgress && starting == None && tourneyClients == {}
        invariant !scrimming && matchPoints == map[] && winners == [] && winningPts == 0
      {
        var slot := new Slot(this, i);
        slots := slots + [slot];
      }
      assert View().slots == seq(SLOTS, i => EMPTY_SLOT);
    }

    /** Sixteen slots that belong to this match alone. */
    ghost predicate Valid()
      reads this`slots
    {
      |slots| == SLOTS && forall i :: 0 <= i < SLOTS ==> slots[i].owner == this && slots[i].index == i
    }

    function SlotViews(): (v: seq<SlotV>)
      reads this`slots, slots
      ensures |v| == |slots| && forall i :: 0 <= i < |slots| ==> v[i] == slots[i].View()
    {
      var ss := slots;
      seq(|ss|, i requires 0 <= i < |ss| reads ss => ss[i].View())
    }

    function View(): MatchV
      reads this, slots
    {
      MatchV(SlotViews(), hostId, referees, mods, freemods, teamType, inProgress, starting, tourneyClients,
             ScrimView())
    }

    function ScrimView(): Scrim
      reads this`scrimming, this`matchPoints, this`winners, this`winningPts
    {
      Scrim(scrimming, matchPoints, winners, winningPts)
    }

    // -------------------------------------------------------------- lookups

    method GetSlotId(player: Player) returns (r: Option<nat>)
      requires Valid()
      ensures r == GetSlot(View(), player)
    {
      for i := 0 to SLOTS
        invariant forall j :: 0 <= j < i ==> slots[j].player != player
      {
        if player == slots[i].player {
          return Some(i);
        }
      }
      r := None;
    }

    method FindFree() returns (r: Option<nat>)
      requires Valid()
      ensures r == GetFree(View())
    {
      for i := 0 to SLOTS
        invariant forall j :: 0 <= j < i ==> !slots[j].status.Open?
      {
        if slots[i].status.Open? {
          return Some(i);
        }
      }
      r := None;
    }

    method FindOccupant() returns (r: Option<Player>)
      requires Valid()
      ensures r == FirstOccupant(View())
    {
      for i := 0 to SLOTS
        invariant forall j :: 0 <= j < i ==> slots[j].player == null
      {
        if slots[i].player != null {
          assert Occupies(View(), i, slots[i].player);
          return Some(slots[i].player);
        }
      }
      r := None;
    }

    method HasPlayerWithId(id: int) returns (b: bool)
      requires Valid()
      ensures b == SeatedById(View(), id)
    {
      ghost var views := View().slots;
      for i := 0 to SLOTS
        invariant forall j :: 0 <= j < i ==> views[j].player == null || views[j].player.id != id
      {
        if slots[i].player != null && slots[i].player.id == id {
          assert views[i] in views;
          return true;
        }
      }
      b := false;
    }

    method ArePlayersThere() returns (b: bool)
      requires Valid()
      ensures b == PlayersThere(View())
    {
      for i := 0 to SLOTS
        invariant forall j :: 0 <= j < i && HasPlayerBit(slots[j].status) ==> slots[j].player != null
      {
        if HasPlayerBit(slots[i].status) && slots[i].player == null {
          assert HasPlayerBit(View().slots[i].status) && View().slots[i].player == null;
          return false;
        }
      }
      b := true;
    }

    // -------------------------------------------------------------- seats

    method SitDown(i: nat, p: Player)
      requires Valid() && i < SLOTS
      modifies slots
      ensures View() == Seated(old(View()), i, p)
    {
      if Teams(teamType) {
        slots[i].team := Red;
      }
      slots[i].status := NotReady;
      slots[i].player := p;
      assert View().slots == Seated(old(View()), i, p).slots;
    }

    method StandUp(i: nat)
      requires Valid() && i < SLOTS
      modifies slots
      ensures View() == Unseated(old(View()), i)
    {
      slots[i].Reset(if slots[i].status.Locked? then Locked else Open);
      assert View().slots == Unseated(old(View()), i).slots;
    }

    // -------------------------------------------------------------- updates of all slots

    method UnreadyPlayers(expected: SlotStatus)
      requires Valid()
      modifies slots
      ensures View() == Unreadied(old(View()), expected)
    {
      for i := 0 to SLOTS
        invariant forall j :: 0 <= j < SLOTS ==>
          slots[j].View() == if j < i then SlotUnreadied(old(slots[j].View()), expected) else old(slots[j].View())
      {
        if slots[i].status == expected {
          slots[i].status := NotReady;
        }
      }
    }

    method ResetPlayersLoadedStatus()
      requires Valid()
      modifies slots
      ensures View() == LoadedReset(old(View()))
    {
      for i := 0 to SLOTS
        invariant forall j :: 0 <= j < SLOTS ==>
          slots[j].View() == if j < i then old(slots[j].View()).(loaded := false, skipped := false) else old(slots[j].View())
      {
        slots[i].loaded := false;
        slots[i].skipped := false;
      }
    }

    method StartPlay()
      requires Valid()
      modifies this`inProgress, slots
      ensures View() == Started(old(View()))
      ensures inProgress && forall i :: 0 <= i < SLOTS ==>
        slots[i].status ==
          if slots[i].player != null && old(slots[i].status) != NoMap then Playing else old(slots[i].status)
    {
      for i := 0 to SLOTS
        invariant forall j :: 0 <= j < SLOTS ==>
          slots[j].View() == if j < i then SlotStarted(old(slots[j].View())) else old(slots[j].View())
      {
        if slots[i].player != null && !slots[i].status.NoMap? {
          slots[i].status := Playing;
        }
      }
      inProgress := true;
    }

    method SetTeamType(t: TeamType)
      requires Valid()
      modifies this`teamType, slots
      ensures View() == TeamsSet(old(View()), t)
    {
      teamType := t;
      var newTeam := if Teams(t) then Red else Neutral;
      for i := 0 to SLOTS
        invariant teamType == t
        invariant forall j :: 0 <= j < SLOTS ==>
          slots[j].View() == if j < i then SlotTeamSet(old(slots[j].View()), t) else old(slots[j].View())
      {
        if slots[i].player != null {
          slots[i].team := newTeam;
        }
      }
    }

    method SetOccupiedMods(newMods: Mods)
      requires Valid()
      modifies slots
      ensures View() == MapSlots(old(View()), (s: SlotV) => SlotModsSet(s, newMods))
    {
      for i := 0 to SLOTS
        invariant forall j :: 0 <= j < SLOTS ==>
          slots[j].View() == if j < i then SlotModsSet(old(slots[j].View()), newMods) else old(slots[j].View())
      {
        if slots[i].player != null {
          slots[i].mods := newMods;
        }
      }
    }

    method SwitchStatus(from: SlotStatus, to: SlotStatus)
      requires Valid()
      modifies slots
      ensures View() == MapSlots(old(View()), (s: SlotV) => SlotSwitched(s, from, to))
    {
      for i := 0 to SLOTS
        invariant forall j :: 0 <= j < SLOTS ==>
          slots[j].View() == if j < i then SlotSwitched(old(slots[j].View()), from, to) else old(slots[j].View())
      {
        if slots[i].status == from {
          slots[i].status := to;
        }
      }
    }

    method EnableFreemods()
      requires Valid()
      modifies this`freemods, this`mods, slots
      ensures View() == FreemodsEnabled(old(View()))
    {
      freemods := true;
      SetOccupiedMods(mods - SPEED_CHANGING_MODS);
      mods := mods * SPEED_CHANGING_MODS;
    }

    method DisableFreemods(host: Player) returns (ok: bool, sends: bool)
      requires Valid()
      modifies this`freemods, this`mods, slots
      ensures Result(View(), ok, sends) == FreemodsDisabled(old(View()), host)
    {
      freemods := false;
      var slot := GetSlotId(host);
      if slot.None? {
        return false, false;
      }
      mods := mods * SPEED_CHANGING_MODS;
      mods := mods + slots[slot.value].mods;
      SetOccupiedMods({});
      return true, true;
    }

    // -------------------------------------------------------------- actions

    method ChangeSlot(p: Player, slotId: int) returns (ok: bool, sends: bool)
      requires Valid()
      modifies slots
      ensures Result(View(), ok, sends) == ActChangeSlot(old(View()), p, slotId)
    {
      if !(0 <= slotId < SLOTS) || !slots[slotId].status.Open? {
        return true, false;
      }
      var slot := GetSlotId(p);
      if slot.None? {
        return false, false;
      }
      slots[slotId].CopyFrom(slots[slot.value]);
      assert SlotViews() == old(SlotViews())[slotId := SlotCopied(old(SlotViews()[slotId]), old(SlotViews()[slot.value]))];
      slots[slot.value].Reset(Open);
      assert View().slots == ActChangeSlot(old(View()), p, slotId).m.slots;
      return true, true;
    }

    method Report(p: Player, report: Report) returns (ok: bool, sends: bool)
      requires Valid()
      modifies slots
      ensures Result(View(), ok, sends) == ActPacket(old(View()), p, null, ReportState(report))
    {
      var slot := GetSlotId(p);
      if slot.None? {
        return false, false;
      }
      slots[slot.value].status := ReportStatus(report);
      assert View().slots == ActPacket(old(View()), p, null, ReportState(report)).m.slots;
      return true, true;
    }

    method LockSlot(host: Player, slotId: int) returns (ok: bool, sends: bool)
      requires Valid()
      modifies slots
      ensures Result(View(), ok, sends) == ActLock(old(View()), host, slotId)
    {
      if !(0 <= slotId < SLOTS) {
        return true, false;
      }
      if slots[slotId].status.Locked? {
        slots[slotId].status := Open;
      } else {
        if slots[slotId].player == host {
          return true, false;
        }
        slots[slotId].status := Locked;
      }
      assert View().slots == ActLock(old(View()), host, slotId).m.slots;
      return true, true;
    }

    method ChangeSettings(host: Player, newFreemods: bool, clearsMap: bool, newTeamType: TeamType)
      returns (ok: bool, sends: bool)
      requires Valid()
      modifies this`freemods, this`mods, this`teamType, slots
      ensures Result(View(), ok, sends) == ActSettings(old(View()), host, newFreemods, clearsMap, newTeamType)
    {
      ok, sends := SetFreemods(host, newFreemods);
      if ok {
        SettleSettings(clearsMap, newTeamType);
      }
    }

    method SetFreemods(host: Player, newFreemods: bool) returns (ok: bool, sends: bool)
      requires Valid()
      modifies this`freemods, this`mods, slots
      ensures Result(View(), ok, sends) == FreemodsChanged(old(View()), host, newFreemods)
    {
      ok, sends := true, true;
      if newFreemods != freemods {
        if newFreemods {
          EnableFreemods();
        } else {
          ok, sends := DisableFreemods(host);
        }
      }
    }

    method SettleSettings(clearsMap: bool, newTeamType: TeamType)
      requires Valid()
      modifies this`teamType, slots
      ensures View() == SettingsSettled(old(View()), clearsMap, newTeamType)
    {
      if clearsMap {
        UnreadyPlayers(Ready);
      }
      if teamType != newTeamType && !scrimming {
        SetTeamType(newTeamType);
      }
    }

    method NobodyPlaying() returns (b: bool)
      requires Valid()
      ensures b == NoneWith(View(), Playing)
    {
      for i := 0 to SLOTS
        invariant forall j :: 0 <= j < i ==> SlotViews()[j].status != Playing
      {
        if slots[i].status.Playing? {
          assert SlotViews()[i].status == Playing;
          return false;
        }
      }
      b := true;
    }

    method EndPlay()
      requires Valid()
      modifies this`inProgress, slots
      ensures View() == PlayEnded(old(View()))
    {
      UnreadyPlayers(Complete);
      ResetPlayersLoadedStatus();
      inProgress := false;
    }

    method CompletePlay(p: Player) returns (ok: bool, sends: bool)
      requires Valid()
      modifies this`inProgress, slots
      ensures Result(View(), ok, sends) == ActComplete(old(View()), p)
    {
      var slot := GetSlotId(p);
      if slot.None? {
        return false, false;
      }
      SetStatus(slot.value, Complete);
      ok := true;
      sends := NobodyPlaying();
      if sends {
        EndPlay();
      }
    }

    method SetStatus(i: nat, status: SlotStatus)
      requires Valid() && i < SLOTS
      modifies slots
      ensures View() == SetSlot(old(View()), i, old(View()).slots[i].(status := status))
    {
      slots[i].status := status;
      assert SlotViews() == old(SlotViews())[i := old(SlotViews())[i].(status := status)];
    }

    method SetMods(p: Player, host: Player?, newMods: Mods) returns (ok: bool, sends: bool)
      requires Valid()
      modifies this`mods, slots
      ensures Result(View(), ok, sends) == ActFreeMods(old(View()), p, host, newMods)
    {
      if p == host {
        mods := newMods * SPEED_CHANGING_MODS;
      }
      var slot := GetSlotId(p);
      if slot.None? {
        return false, false;
      }
      slots[slot.value].mods := newMods - SPEED_CHANGING_MODS;
      assert View().slots == ActFreeMods(old(View()), p, host, newMods).m.slots;
      return true, true;
    }

    method MarkLoaded(p: Player) returns (ok: bool, sends: bool)
      requires Valid()
      modifies slots
      ensures Result(View(), ok, sends) == ActPacket(old(View()), p, null, LoadComplete)
    {
      var slot := GetSlotId(p);
      if slot.None? {
        return false, false;
      }
      slots[slot.value].loaded := true;
      assert View().slots == ActPacket(old(View()), p, null, LoadComplete).m.slots;
      return true, false;
    }

    method MarkSkipped(p: Player) returns (ok: bool, sends: bool)
      requires Valid()
      modifies slots
      ensures Result(View(), ok, sends) == ActPacket(old(View()), p, null, SkipRequest)
    {
      var slot := GetSlotId(p);
      if slot.None? {
        return false, false;
      }
      slots[slot.value].skipped := true;
      assert View().slots == ActPacket(old(View()), p, null, SkipRequest).m.slots;
      return true, false;
    }

    method ToggleTeam(p: Player) returns (ok: bool, sends: bool)
      requires Valid()
      modifies slots
      ensures Result(View(), ok, sends) == ActPacket(old(View()), p, null, ChangeTeam)
    {
      var slot := GetSlotId(p);
      if slot.None? {
        return false, false;
      }
      slots[slot.value].team := if slots[slot.value].team.Blue? then Red else Blue;
      assert View().slots == ActPacket(old(View()), p, null, ChangeTeam).m.slots;
      return true, true;
    }

    method StartCommand(p: Player, kind: StartKind) returns (ok: bool, sends: bool)
      requires Valid()
      modifies this`inProgress, this`starting, slots
      ensures Result(View(), ok, sends) == ActMpStart(old(View()), p, kind)
    {
      match kind {
        case Now =>
          if starting.Some? {
            return true, false;
          }
          for i := 0 to SLOTS
            invariant forall j :: 0 <= j < i ==> !slots[j].status.NotReady?
          {
            if slots[i].status.NotReady? {
              assert View().slots[i].status.NotReady?;
              return true, false;
            }
          }
        case After(seconds) =>
          if starting.None? && 0 < seconds <= 300 {
            starting := Some(p);
          }
          return true, false;
        case Cancel =>
          starting := None;
          return true, false;
        case Force =>
      }
      StartPlay();
      return true, true;
    }

    method FireTimer() returns (ok: bool, sends: bool)
      requires Valid()
      modifies this`inProgress, this`starting, slots
      ensures Result(View(), ok, sends) == TimerFired(old(View()))
    {
      if starting.None? {
        return true, false;
      }
      var p := starting.value;
      var slot := GetSlotId(p);
      starting := None;
      if slot.None? {
        return true, false;
      }
      assert Occupies(old(View()), slot.value, p);
      StartPlay();
      return true, true;
    }

    method Abort() returns (ok: bool, sends: bool)
      requires Valid()
      modifies this`inProgress, slots
      ensures Result(View(), ok, sends) == Aborted(old(View()))
    {
      if !inProgress {
        return true, false;
      }
      UnreadyPlayers(Playing);
      ResetPlayersLoadedStatus();
      inProgress := false;
      return true, true;
    }

    // -------------------------------------------------------------- scrims

    method ResetScrim()
      modifies this`matchPoints, this`winners
      ensures ScrimView() == ScrimReset(old(ScrimView()))
    {
      matchPoints, winners := map[], [];
    }

    method StartScrim(bestOf: int)
      modifies this`scrimming, this`winningPts, this`matchPoints, this`winners
      ensures ScrimView() == ScrimStarted(old(ScrimView()), bestOf)
    {
      if 0 <= bestOf < 16 {
        SetScrim(bestOf, bestOf / 2 + 1);
      }
    }

    method SetScrim(bestOf: int, newWinningPts: int)
      modifies this`scrimming, this`winningPts, this`matchPoints, this`winners
      ensures ScrimView() == ScrimSet(old(ScrimView()), bestOf, newWinningPts)
    {
      if newWinningPts != 0 {
        if scrimming || bestOf % 2 == 0 {
          return;
        }
        scrimming := true;
      } else {
        if !scrimming {
          return;
        }
        scrimming := false;
        ResetScrim();
      }
      winningPts := newWinningPts;
    }

    method EndScrim()
      modifies this`scrimming, this`matchPoints, this`winners
      ensures ScrimView() == ScrimEnded(old(ScrimView()))
    {
      if scrimming {
        scrimming := false;
        ResetScrim();
      }
    }

    method RestartScrim()
      modifies this`scrimming, this`matchPoints, this`winners
      ensures ScrimView() == Rematched(old(ScrimView()))
    {
      if !scrimming {
        if winningPts != 0 {
          scrimming := true;
        }
      } else if winners != [] && winners[|winners| - 1].Some? {
        var recent := winners[|winners| - 1].value;
        matchPoints := matchPoints[recent := (if recent in matchPoints then matchPoints[recent] else 0) - 1];
        winners := winners[..|winners| - 1];
      }
    }

    /** `update_matchpoints`, once the scores of the play are in. */
    method UpdateMatchpoints(scores: seq<(Side, int)>) returns (ok: bool)
      modifies this`scrimming, this`matchPoints, this`winners
      ensures (ScrimView(), ok) == PointAwarded(old(ScrimView()), teamType, scores)
      ensures PointGoes(old(ScrimView()), teamType, scores, ScrimView(), ok)
    {
      PointAwardedGoes(ScrimView(), teamType, scores);
      if scores == [] {
        return true;
      }
      var tied, best := Decide(scores);
      if tied {
        winners := winners + [None];
        return true;
      }
      ok := GivePoint(scores[best].0);
    }

    method ReadPoints(side: Side)
      modifies this`matchPoints
      ensures ScrimView() == LookUp(old(ScrimView()), side)
    {
      matchPoints := matchPoints[side := if side in matchPoints then matchPoints[side] else 0];
    }

    method GivePoint(winner: Side) returns (ok: bool)
      modifies this`scrimming, this`matchPoints, this`winners
      ensures (ScrimView(), ok) == PointGiven(old(ScrimView()), teamType, winner)
    {
      winners := winners + [Some(winner)];
      matchPoints := matchPoints[winner := (if winner in matchPoints then matchPoints[winner] else 0) + 1];
      if Teams(teamType) != winner.TeamSide? {
        return false;
      }
      if winner.TeamSide? {
        ReadPoints(TeamSide(if winner.team.Blue? then Red else Blue));
      }
      if winningPts != 0 && matchPoints[winner] == winningPts {
        scrimming := false;
        ResetScrim();
      }
      ok := true;
    }

    // -------------------------------------------------------------- dispatch

    method GiveHost(slotId: int) returns (ok: bool, sends: bool)
      requires Valid()
      modifies this`hostId
      ensures Result(View(), ok, sends) == HostGiven(old(View()), slotId)
    {
      if !(0 <= slotId < SLOTS) || slots[slotId].player == null {
        return true, false;
      }
      hostId := slots[slotId].player.id;
      return true, true;
    }

    method NameHost(host: Player, target: Player) returns (ok: bool, sends: bool)
      requires Valid()
      modifies this`hostId
      ensures Result(View(), ok, sends) == HostNamed(old(View()), host, target)
    {
      var slot := GetSlotId(target);
      if target == host || slot.None? {
        return true, false;
      }
      assert Occupies(View(), slot.value, target);
      hostId := target.id;
      return true, true;
    }

    method AddReferee(host: Player, target: Player) returns (ok: bool, sends: bool)
      requires Valid()
      modifies this`referees
      ensures Result(View(), ok, sends) == RefereeAdded(old(View()), host, target)
    {
      var slot := GetSlotId(target);
      if slot.Some? && target !in referees + {host} {
        assert Occupies(View(), slot.value, target);
        referees := referees + {target};
      }
      return true, false;
    }

    method RemoveReferee(host: Player, target: Player) returns (ok: bool, sends: bool)
      modifies this`referees
      ensures Result(View(), ok, sends) == RefereeRemoved(old(View()), host, target)
    {
      if target in referees + {host} && target != host {
        referees := referees - {target};
      }
      return true, false;
    }

    method CommandTeams(t: TeamType)
      requires Valid()
      modifies this, slots
      ensures slots == old(slots)
      ensures View() == TeamsCommanded(old(View()), t)
    {
      SetTeamType(t);
      if scrimming {
        ResetScrim();
      }
    }

    method Pick(newMods: Mods)
      requires Valid()
      modifies this`freemods, this`mods, slots
      ensures View() == MapPicked(old(View()), newMods)
    {
      if freemods {
        freemods := false;
        SetOccupiedMods({});
      }
      mods := newMods;
    }

    method CommandMods(p: Player, host: Player, newMods: Mods) returns (ok: bool, sends: bool)
      requires Valid()
      modifies this`mods, slots
      ensures Result(View(), ok, sends) == ActModsCommand(old(View()), p, host, MpMods(newMods))
    {
      if freemods {
        ok, sends := SetMods(p, host, newMods);
      } else {
        mods := newMods;
        ok, sends := true, true;
      }
    }

    method ChangeModsPacket(p: Player, host: Player?, newMods: Mods) returns (ok: bool, sends: bool)
      requires Valid()
      modifies this`mods, slots
      ensures Result(View(), ok, sends) == ActChangeMods(old(View()), p, host, newMods)
    {
      if host == null {
        return false, false;
      }
      if freemods {
        ok, sends := SetMods(p, host, newMods);
      } else if p != host {
        ok, sends := true, false;
      } else {
        mods := newMods;
        ok, sends := true, true;
      }
    }

    method PerformAsHost(host: Player, a: Action) returns (ok: bool, sends: bool)
      requires Valid() && HostOnly(a)
      modifies this, slots
      ensures slots == old(slots)
      ensures Result(View(), ok, sends) == ActAsHost(old(View()), host, a)
    {
      ok, sends := true, true;
      match a {
        case Lock(i) => ok, sends := LockSlot(host, i);
        case ChangeSettings(fm, clearsMap, t) => ok, sends := ChangeSettings(host, fm, clearsMap, t);
        case StartMatch => StartPlay();
        case TransferHost(i) => ok, sends := GiveHost(i);
      }
    }

    method PerformPacket(p: Player, host: Player?, a: Action) returns (ok: bool, sends: bool)
      requires Valid() && !HostOnly(a) && !Command(a)
      modifies this, slots
      ensures slots == old(slots)
      ensures Result(View(), ok, sends) == ActPacket(old(View()), p, host, a)
    {
      match a {
        case ChangeSlot(i) => ok, sends := ChangeSlot(p, i);
        case ReportState(r) => ok, sends := Report(p, r);
        case CompletePlay => ok, sends := CompletePlay(p);
        case ChangeMods(newMods) => ok, sends := ChangeModsPacket(p, host, newMods);
        case LoadComplete => ok, sends := MarkLoaded(p);
        case SkipRequest => ok, sends := MarkSkipped(p);
        case ChangeTeam => ok, sends := ToggleTeam(p);
      }
    }

    /** The `!mp` commands, for a player allowed to give them. */
    method PerformCommand(p: Player, host: Player, a: Action) returns (ok: bool, sends: bool)
      requires Valid() && Command(a) && !ModsCommand(a) && !ScrimCommand(a)
      modifies this, slots
      ensures slots == old(slots)
      ensures Result(View(), ok, sends) == ActCommand(old(View()), p, host, a)
    {
      ok, sends := true, true;
      match a {
        case MpStart(kind) => ok, sends := StartCommand(p, kind);
        case MpAbort => ok, sends := Abort();
        case MpHost(target) => ok, sends := NameHost(host, target);
        case MpAddref(target) => ok, sends := AddReferee(host, target);
        case MpRmref(target) => ok, sends := RemoveReferee(host, target);
        case MpLock => SwitchStatus(Open, Locked);
        case MpUnlock => SwitchStatus(Locked, Open);
        case MpTeams(t) => CommandTeams(t);
      }
    }

    method PerformModsCommand(p: Player, host: Player, a: Action) returns (ok: bool, sends: bool)
      requires Valid() && ModsCommand(a)
      modifies this, slots
      ensures slots == old(slots)
      ensures Result(View(), ok, sends) == ActModsCommand(old(View()), p, host, a)
    {
      ok, sends := true, true;
      match a {
        case MpMods(newMods) => ok, sends := CommandMods(p, host, newMods);
        case MpFreemods(on) =>
          if on {
            EnableFreemods();
          } else {
            ok, sends := DisableFreemods(host);
          }
        case MpPick(newMods) => Pick(newMods);
      }
    }

    method PerformScrimCommand(p: Player, host: Player, a: Action)
      requires ScrimCommand(a)
      modifies this`scrimming, this`matchPoints, this`winners, this`winningPts
      ensures Quiet(View()) == ActScrimCommand(old(View()), p, host, a)
    {
      match a {
        case MpScrim(n) => StartScrim(n);
        case MpEndscrim => EndScrim();
        case MpRematch =>
          if p == host {
            RestartScrim();
          }
      }
    }

    /** One packet or command of a player about the match, whichever handler it goes to. */
    method Perform(p: Player, host: Player?, manager: bool, a: Action) returns (ok: bool, sends: bool)
      requires Valid()
      modifies this, slots
      ensures slots == old(slots)
      ensures Result(View(), ok, sends) == Act(old(View()), p, host, manager, a)
    {
      if HostOnly(a) {
        ok, sends := PerformIfHost(p, host, a);
      } else if Command(a) {
        ok, sends := PerformIfAllowed(p, host, manager, a);
      } else {
        ok, sends := PerformPacket(p, host, a);
      }
    }

    method PerformIfHost(p: Player, host: Player?, a: Action) returns (ok: bool, sends: bool)
      requires Valid() && HostOnly(a)
      modifies this, slots
      ensures slots == old(slots)
      ensures Result(View(), ok, sends) == ActIfHost(old(View()), p, host, a)
    {
      if host == null {
        return false, false;
      }
      if p != host {
        return true, false;
      }
      ok, sends := PerformAsHost(host, a);
    }

    method PerformIfAllowed(p: Player, host: Player?, manager: bool, a: Action) returns (ok: bool, sends: bool)
      requires Valid() && Command(a)
      modifies this, slots
      ensures slots == old(slots)
      ensures Result(View(), ok, sends) == ActIfAllowed(old(View()), p, host, manager, a)
    {
      if host == null {
        return false, false;
      }
      if p !in referees + {host} && !manager {
        return true, false;
      }
      if ModsCommand(a) {
        ok, sends := PerformModsCommand(p, host, a);
      } else if ScrimCommand(a) {
        PerformScrimCommand(p, host, a);
        ok, sends := true, false;
      } else {
        ok, sends := PerformCommand(p, host, a);
      }
    }
  }

  /** Whether the scores are tied, and the first of the highest. */
  method Decide(scores: seq<(Side, int)>) returns (tied: bool, best: nat)
    requires scores != []
    ensures tied == Tied(scores) && best == Winner(scores)
    ensures tied == Level(scores) && Leads(scores, best)
  {
    best, tied := 0, |scores| > 1;
    for i := 0 to |scores|
      invariant best <= i && best < |scores|
      invariant forall j :: 0 <= j < i ==> scores[j].1 <= scores[best].1
      invariant forall j :: 0 <= j < best ==> scores[j].1 < scores[best].1
      invariant tied <==> |scores| > 1 && forall j :: 0 <= j < i ==> scores[j].1 == scores[0].1
    {
      if scores[i].1 > scores[best].1 {
        best := i;
      }
      tied := tied && scores[i].1 == scores[0].1;
    }
    var w := Winner(scores);
    assert scores[best].1 == scores[w].1;
  }

  function NewMatch(hostId: int, mods: Mods, freemods: bool, teamType: TeamType): MatchV {
    MatchV(seq(SLOTS, i => EMPTY_SLOT), hostId, {}, mods, freemods, teamType, false, None, {}, NO_SCRIM)
  }
}
