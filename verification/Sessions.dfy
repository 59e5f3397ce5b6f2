/** The server's multiplayer session: players, channels, spectators and matches as one value, and
    every step that changes it. */
module Sessions {
  import opened Wrappers
  import opened Multiplayer

  const MAX_MATCHES: nat := 64

  /** The listed players (with their index by id), matches and channels, and the state of every
      player, match and channel there has been. */
  datatype World = World(
    players: seq<Player>, byId: map<int, Player>, matches: seq<Match?>, channels: seq<Channel>,
    pl: map<Player, PlayerV>, ma: map<Match, MatchV>, ch: map<Channel, seq<Player>>)

  /** The state a step leaves, and whether it returned rather than raised. */
  datatype Outcome = Outcome(w: World, ok: bool)

  const NOBODY: PlayerV := PlayerV({}, false, [], [], null, null)

  const NO_MATCH: MatchV := NewMatch(0, {}, false, HeadToHead)

  function P(w: World, p: Player): PlayerV {
    if p in w.pl then w.pl[p] else NOBODY
  }

  function M(w: World, m: Match): MatchV {
    if m in w.ma then w.ma[m] else NO_MATCH
  }

  function C(w: World, c: Channel): seq<Player> {
    if c in w.ch then w.ch[c] else []
  }

  function SetP(w: World, p: Player, v: PlayerV): World {
    w.(pl := w.pl[p := v])
  }

  function SetM(w: World, m: Match, v: MatchV): World {
    w.(ma := w.ma[m := v])
  }

  function SetC(w: World, c: Channel, members: seq<Player>): World {
    w.(ch := w.ch[c := members])
  }

  /** `list.remove`, of an element that is there. */
  function Remove<T(==)>(s: seq<T>, x: T): (r: seq<T>)
    ensures x !in s ==> r == s
    ensures x in s ==> |r| == |s| - 1
    ensures forall y :: y in r ==> y in s
    ensures forall y :: y in s && y != x ==> y in r
  {
    if s == [] then [] else if s[0] == x then s[1..] else [s[0]] + Remove(s[1..], x)
  }

  function FindChannel(channels: seq<Channel>, name: ChannelName): (r: Option<Channel>)
    ensures r.Some? ==> r.value in channels && r.value.name == name
    ensures r.None? ==> forall c <- channels :: c.name != name
  {
    if channels == [] then None
    else if channels[0].name == name then Some(channels[0])
    else FindChannel(channels[1..], name)
  }

  /** `match.host`: null when the lookup raises. */
  function Host(w: World, m: Match): Player? {
    if M(w, m).hostId in w.byId then w.byId[M(w, m).hostId] else null
  }

  /** The match's state can be written out: its host is found and the writer's assertion on players holds. */
  predicate Sendable(w: World, m: Match) {
    Host(w, m) != null && PlayersThere(M(w, m))
  }

  // ---------------------------------------------------------------- channels

  function JoinChannel(w: World, p: Player, c: Channel): (World, bool) {
    if p in C(w, c) || !c.CanRead(P(w, p).priv) || (c.name.Lobby? && !P(w, p).inLobby) then (w, false)
    else (SetP(SetC(w, c, C(w, c) + [p]), p, P(w, p).(channels := P(w, p).channels + [c])), true)
  }

  /** An instanced channel is unlisted with its last member; removing what is not listed raises. */
  function RemoveMember(w: World, p: Player, c: Channel): Outcome {
    var w := SetC(w, c, Remove(C(w, c), p));
    if C(w, c) != [] || !c.Instance() then Outcome(w, true)
    else if c !in w.channels then Outcome(w, false)
    else Outcome(w.(channels := Remove(w.channels, c)), true)
  }

  function LeaveChannel(w: World, p: Player, c: Channel): Outcome {
    if p !in C(w, c) then Outcome(w, true)
    else
      var o := RemoveMember(w, p, c);
      if !o.ok || c !in P(o.w, p).channels then Outcome(o.w, false)
      else Outcome(SetP(o.w, p, P(o.w, p).(channels := Remove(P(o.w, p).channels, c))), true)
  }

  function JoinNamed(w: World, p: Player, name: ChannelName): Outcome {
    match FindChannel(w.channels, name)
    case Some(c) => Outcome(JoinChannel(w, p, c).0, true)
    case None => Outcome(w, true)
  }

  function PartNamed(w: World, p: Player, name: ChannelName): Outcome {
    match FindChannel(w.channels, name)
    case Some(c) => LeaveChannel(w, p, c)
    case None => Outcome(w, true)
  }

  /** `while self.channels: self.leave_channel(self.channels[0])`; a turn that takes no channel away
      would repeat forever, and counts as not returning. */
  function LeaveChannels(w: World, p: Player): Outcome
    decreases |P(w, p).channels|
  {
    if P(w, p).channels == [] then Outcome(w, true)
    else
      var o := LeaveChannel(w, p, P(w, p).channels[0]);
      if !o.ok || |P(o.w, p).channels| >= |P(w, p).channels| then Outcome(o.w, false) else LeaveChannels(o.w, p)
  }

  // ---------------------------------------------------------------- spectators

  /** The host's spectator channel; when none is listed the new object `created` becomes it, with the
      host inside. */
  function SpectatorChannel(w: World, host: Player, created: Channel): (World, Channel) {
    match FindChannel(w.channels, Spec(host.id))
    case Some(c) => (w, c)
    case None =>
      var w := JoinChannel(SetC(w, created, []), host, created).0;
      (w.(channels := w.channels + [created]), created)
  }

  function LinkSpectator(w: World, host: Player, p: Player): World {
    var w := SetP(w, host, P(w, host).(spectators := P(w, host).spectators + [p]));
    SetP(w, p, P(w, p).(spectating := host))
  }

  function AddSpectator(w: World, host: Player, p: Player, created: Channel): World {
    var (w, c) := SpectatorChannel(w, host, created);
    var (w, joined) := JoinChannel(w, p, c);
    if joined then LinkSpectator(w, host, p) else w
  }

  function UnlinkSpectator(w: World, host: Player, p: Player): World {
    var w := SetP(w, host, P(w, host).(spectators := Remove(P(w, host).spectators, p)));
    SetP(w, p, P(w, p).(spectating := null))
  }

  function RemoveSpectator(w: World, host: Player, p: Player): Outcome {
    if p !in P(w, host).spectators then Outcome(w, false)
    else
      var w := UnlinkSpectator(w, host, p);
      match FindChannel(w.channels, Spec(host.id))
      case None => Outcome(w, false)
      case Some(c) =>
        var o := LeaveChannel(w, p, c);
        if !o.ok || P(o.w, host).spectators != [] then o else LeaveChannel(o.w, host, c)
  }

  function StartSpectating(w: World, p: Player, target: int, created: Channel): Outcome {
    if target !in w.byId then Outcome(w, true)
    else
      var host, current := w.byId[target], P(w, p).spectating;
      if current == host then Outcome(w, true)
      else
        var o := if current == null then Outcome(w, true) else RemoveSpectator(w, current, p);
        if !o.ok then o else Outcome(AddSpectator(o.w, host, p, created), true)
  }

  // ---------------------------------------------------------------- matches

  /** The slot a joining player gets; the second result is false when the lookup of the host raises.
      `accepted`: the password is right or the player is staff. */
  function SeatFor(w: World, p: Player, m: Match, accepted: bool): (Option<nat>, bool) {
    var host := Host(w, m);
    if P(w, p).currentMatch != null || p.id in M(w, m).tourneyClients then (None, true)
    else if host == null then (None, false)
    else if p == host then (Some(0), true)
    else if accepted then (GetFree(M(w, m)), true)
    else (None, true)
  }

  function JoinMatch(w: World, p: Player, m: Match, accepted: bool): Outcome {
    var (slot, ok) := SeatFor(w, p, m, accepted);
    if slot.None? then Outcome(w, ok) else SeatTaken(w, p, m, slot.value)
  }

  /** The rest of joining, once nothing speaks against it. */
  function SeatTaken(w: World, p: Player, m: Match, slot: nat): Outcome {
    var (w, joined) := JoinChannel(w, p, m.chat);
    if !joined then Outcome(w, true)
    else
      var o := LeaveLobby(w, p);
      if !o.ok then o else SatDown(o.w, p, m, slot)
  }

  function SatDown(w: World, p: Player, m: Match, slot: nat): Outcome {
    var w := Seat(w, p, m, slot);
    Outcome(w, Sendable(w, m))
  }

  /** `p` takes the slot, and the match. */
  function Seat(w: World, p: Player, m: Match, slot: nat): World {
    var w := SetM(w, m, Seated(M(w, m), slot, p));
    SetP(w, p, P(w, p).(currentMatch := m))
  }

  function LeaveLobby(w: World, p: Player): Outcome {
    match FindChannel(w.channels, Lobby)
    case Some(lobby) => if lobby in P(w, p).channels then LeaveChannel(w, p, lobby) else Outcome(w, true)
    case None => Outcome(w, true)
  }

  function LeaveMatch(w: World, p: Player): Outcome {
    var m := P(w, p).currentMatch;
    if m == null then Outcome(w, true)
    else
      match GetSlot(M(w, m), p)
      case None => Outcome(w, false)
      case Some(i) => LeaveSlot(w, p, m, i)
  }

  function LeaveSlot(w: World, p: Player, m: Match, i: nat): Outcome
    requires i < |M(w, m).slots|
  {
    var o := LeaveChannel(SetM(w, m, Unseated(M(w, m), i)), p, m.chat);
    if !o.ok then o
    else
      var o := Vacated(o.w, p, m);
      if !o.ok then o else Outcome(SetP(o.w, p, P(o.w, p).(currentMatch := null)), true)
  }

  function Vacated(w: World, p: Player, m: Match): Outcome {
    if Empty(M(w, m)) then Outcome(CloseMatch(w, m), true) else HandOver(w, p, m)
  }

  /** The last player has left: timers go, and the match leaves the list. */
  function CloseMatch(w: World, m: Match): World {
    SetM(w, m, M(w, m).(starting := None)).(matches := Unlist(w.matches, m))
  }

  function Unlist(matches: seq<Match?>, m: Match): (r: seq<Match?>)
    ensures |r| == |matches|
    ensures forall n <- r :: n == null || n in matches
  {
    if matches == [] then []
    else if matches[0] == m then [null] + matches[1..]
    else [matches[0]] + Unlist(matches[1..], m)
  }

  /** Others remain: the host's crown goes to the first of them, and a referee's post ends. */
  function HandOver(w: World, p: Player, m: Match): Outcome {
    if Host(w, m) == null then Outcome(w, false)
    else
      PostEnded(if Host(w, m) == p then Crowned(w, m) else w, p, m)
  }

  /** The new host is told, which raises when the lookup does. */
  function PostEnded(w: World, p: Player, m: Match): Outcome {
    if Host(w, m) == null then Outcome(w, false)
    else
      var w := RefereeLeft(w, p, m);
      Outcome(w, Sendable(w, m))
  }

  function RefereeLeft(w: World, p: Player, m: Match): World {
    SetM(w, m, M(w, m).(referees := M(w, m).referees - {p}))
  }

  function Crowned(w: World, m: Match): World {
    match FirstOccupant(M(w, m))
    case Some(q) => SetM(w, m, M(w, m).(hostId := q.id))
    case None => w
  }

  /** The data of a new match that the session depends on. */
  datatype Creation = Creation(mods: Mods, freemods: bool, teamType: TeamType)

  /** `m` is the object made for the first free id, with its channel. The request is validated: its host
      is the sender. A sender who is restricted or silenced gets nothing. */
  function CreateMatch(w: World, p: Player, m: Match, silenced: bool, d: Creation): Outcome {
    if Creates(w, p, silenced) then JoinMatch(Registered(w, p, m, d), p, m, true) else Outcome(w, true)
  }

  /** A match is really created: the request gets past the checks and an id is free. */
  predicate Creates(w: World, p: Player, silenced: bool) {
    UNRESTRICTED in P(w, p).priv && !silenced && FreeId(w.matches).Some?
  }

  /** The world with the new match listed, before its creator joins. */
  function Registered(w: World, p: Player, m: Match, d: Creation): World {
    if FreeId(w.matches).None? then w
    else
      var w := w.(matches := w.matches[FreeId(w.matches).value := m], channels := w.channels + [m.chat]);
      SetC(SetM(w, m, NewMatch(p.id, d.mods, d.freemods, d.teamType)), m.chat, [])
  }

  function FreeId(matches: seq<Match?>): (r: Option<nat>)
    ensures r.Some? ==> r.value < |matches| && matches[r.value] == null && forall j :: 0 <= j < r.value ==> matches[j] != null
    ensures r.None? ==> forall j :: 0 <= j < |matches| ==> matches[j] != null
  {
    if matches == [] then None
    else if matches[0] == null then Some(0)
    else match FreeId(matches[1..]) case Some(i) => Some(i + 1) case None => None
  }

  // ---------------------------------------------------------------- players

  function Logout(w: World, p: Player): Outcome {
    var o := LeaveMatch(w, p);
    if !o.ok then o
    else
      var o := StopSpectatingAny(o.w, p);
      if !o.ok then o
      else
        var o := LeaveChannels(o.w, p);
        if !o.ok then o else Outcome(RemovePlayer(o.w, p), true)
  }

  function StopSpectatingAny(w: World, p: Player): Outcome {
    if P(w, p).spectating == null then Outcome(w, true) else RemoveSpectator(w, P(w, p).spectating, p)
  }

  function RemovePlayer(w: World, p: Player): World {
    if p !in w.players then w else w.(players := Remove(w.players, p), byId := w.byId - {p.id})
  }

  function LoggedIn(w: World, p: Player, priv: Privileges): World {
    SetP(w, p, NOBODY.(priv := priv)).(players := w.players + [p], byId := w.byId[p.id := p])
  }

  // ---------------------------------------------------------------- steps

  datatype Event =
    | Login(p: Player, priv: Privileges)
    | LogoutStep(p: Player)
    | SetPrivileges(p: Player, priv: Privileges)
    | SetInLobby(p: Player, inLobby: bool)
    | ChannelJoin(p: Player, name: ChannelName)
    | ChannelPart(p: Player, name: ChannelName)
    | Spectate(p: Player, targetId: int, created: Channel)
    | StopSpectating(p: Player)
    | Create(p: Player, m: Match, silenced: bool, creation: Creation)
    | Join(p: Player, index: nat, silenced: bool, accepted: bool)
    | Part(p: Player)
    | TourneyJoin(p: Player, index: nat)
    | TourneyLeave(p: Player, index: nat)
    | InMatch(p: Player, manager: bool, action: Action)
    | MpForce(p: Player, manager: bool, target: Player)
    | TimerOff(m: Match)
    | ScrimPlayScored(m: Match, scores: seq<(Side, int)>)

  function Listed(w: World, index: nat): Match? {
    if index < |w.matches| then w.matches[index] else null
  }

  /** One step. Sending a match's state is the last thing a handler does, so a failure to send it
      raises but changes nothing. */
  function Step(w: World, e: Event): Outcome {
    match e
    case Login(p, priv) => Outcome(LoggedIn(w, p, priv), true)
    case LogoutStep(p) => Logout(w, p)
    case SetPrivileges(p, priv) => Outcome(SetP(w, p, P(w, p).(priv := priv)), true)
    case SetInLobby(p, inLobby) => Outcome(SetP(w, p, P(w, p).(inLobby := inLobby)), true)
    case ChannelJoin(p, name) => JoinNamed(w, p, name)
    case ChannelPart(p, name) => PartNamed(w, p, name)
    case Spectate(p, target, created) => StartSpectating(w, p, target, created)
    case StopSpectating(p) => StopSpectatingAny(w, p)
    case Create(p, m, silenced, creation) => CreateMatch(w, p, m, silenced, creation)
    case Join(p, index, silenced, accepted) => JoinListed(w, p, index, silenced, accepted)
    case Part(p) => LeaveMatch(w, p)
    case TourneyJoin(p, index) => TourneyJoined(w, p, Listed(w, index))
    case TourneyLeave(p, index) => TourneyLeft(w, p, Listed(w, index))
    case InMatch(p, manager, action) => ActInMatch(w, p, manager, action)
    case MpForce(p, manager, target) => ForceJoin(w, p, manager, target)
    case TimerOff(m) => Settle(w, m, TimerFired(M(w, m)))
    case ScrimPlayScored(m, scores) => PlayScored(w, m, scores)
  }

  function ActInMatch(w: World, p: Player, manager: bool, action: Action): Outcome {
    var m := P(w, p).currentMatch;
    if m == null then Outcome(w, true) else Settle(w, m, Act(M(w, m), p, Host(w, m), manager, action))
  }

  function JoinListed(w: World, p: Player, index: nat, silenced: bool, accepted: bool): Outcome {
    if Listed(w, index) == null || UNRESTRICTED !in P(w, p).priv || silenced then Outcome(w, true)
    else JoinMatch(w, p, Listed(w, index), accepted)
  }

  function ForceJoin(w: World, p: Player, manager: bool, target: Player): Outcome {
    var m := P(w, p).currentMatch;
    if m == null then Outcome(w, true)
    else if Host(w, m) == null then Outcome(w, false)
    else if p !in M(w, m).referees + {Host(w, m)} && !manager then Outcome(w, true)
    else JoinMatch(w, target, m, true)
  }

  /** The scores of a play that was under a scrim are in. */
  function PlayScored(w: World, m: Match, scores: seq<(Side, int)>): Outcome {
    PointSet(w, m, PointAwarded(M(w, m).scrim, M(w, m).teamType, scores))
  }

  function PointSet(w: World, m: Match, point: (Scrim, bool)): Outcome {
    Outcome(SetM(w, m, M(w, m).(scrim := point.0)), point.1)
  }

  function Settle(w: World, m: Match, r: Result): Outcome {
    var w := SetM(w, m, r.m);
    Outcome(w, r.ok && (r.sends ==> Sendable(w, m)))
  }

  /** Donors may sit in a match's channel without playing; anyone in a slot may not. */
  function TourneyJoined(w: World, p: Player, m: Match?): Outcome {
    if m == null || SeatedById(M(w, m), p.id) then Outcome(w, true)
    else
      var (w, joined) := JoinChannel(w, p, m.chat);
      Outcome(if joined then SetM(w, m, M(w, m).(tourneyClients := M(w, m).tourneyClients + {p.id})) else w, true)
  }

  function TourneyLeft(w: World, p: Player, m: Match?): Outcome {
    if m == null || p.id !in M(w, m).tourneyClients then Outcome(w, true)
    else
      var o := LeaveChannel(w, p, m.chat);
      if !o.ok then o
      else Outcome(SetM(o.w, m, M(o.w, m).(tourneyClients := M(o.w, m).tourneyClients - {p.id})), true)
  }
}
