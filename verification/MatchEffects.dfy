/** What each packet and command changes in a match, slot by slot and field by field, and what it leaves alone. */
module MatchEffects {
  import opened Wrappers
  import opened Multiplayer

  // ---------------------------------------------------------------- vocabulary

  /** The first slot that `p` sits in; nobody sits in two. */
  ghost predicate Own(m: MatchV, p: Player, j: int) {
    0 <= j < |m.slots| && m.slots[j].player == p && forall k :: 0 <= k < j ==> m.slots[k].player != p
  }

  ghost predicate Away(m: MatchV, p: Player) {
    forall k :: 0 <= k < |m.slots| ==> m.slots[k].player != p
  }

  /** The slot numbers that exist. */
  predicate Numbered(m: MatchV, i: int) {
    0 <= i < 16 && i < |m.slots|
  }

  predicate IsTeamMode(t: TeamType) {
    t == TeamVs || t == TagTeamVs
  }

  /** Half time, double time and nightcore, and all the others. */
  function Speed(mods: Mods): Mods {
    set x | x in mods && (x == 6 || x == 8 || x == 9)
  }

  function Other(mods: Mods): Mods {
    set x | x in mods && !(x == 6 || x == 8 || x == 9)
  }

  lemma SplitMods(mods: Mods)
    ensures mods * SPEED_CHANGING_MODS == Speed(mods) && mods - SPEED_CHANGING_MODS == Other(mods)
  {
  }

  predicate HostPacket(a: Action) {
    a.Lock? || a.ChangeSettings? || a.StartMatch? || a.TransferHost?
  }

  predicate ChatCommand(a: Action) {
    || a.MpStart? || a.MpAbort? || a.MpMods? || a.MpFreemods? || a.MpHost? || a.MpAddref? || a.MpRmref? || a.MpLock?
    || a.MpUnlock? || a.MpTeams? || a.MpScrim? || a.MpEndscrim? || a.MpRematch? || a.MpPick?
  }

  /** The host may do anything; a referee or a manager may give commands; everyone may send the other packets. */
  predicate Allowed(m: MatchV, p: Player, host: Player?, manager: bool, a: Action) {
    && (HostPacket(a) ==> host == p)
    && (ChatCommand(a) ==> host != null && (host == p || p in m.referees || manager))
    && (a.ChangeMods? ==> host != null)
  }

  /** An action that is not allowed changes nothing, and raises exactly when the host cannot be found. */
  lemma NotAllowed(m: MatchV, p: Player, host: Player?, manager: bool, a: Action)
    requires !Allowed(m, p, host, manager, a)
    ensures Act(m, p, host, manager, a) == Result(m, host != null, false)
  {
  }

  // ---------------------------------------------------------------- starting and ending a play

  /** Everyone with the map plays, and nothing else changes. */
  ghost predicate PlayStarts(m: MatchV, m': MatchV) {
    && m'.inProgress && m' == m.(slots := m'.slots, inProgress := true) && |m'.slots| == |m.slots|
    && forall i :: 0 <= i < |m.slots| ==>
         && (m'.slots[i].status.Playing? <==>
               (m.slots[i].player != null && !m.slots[i].status.NoMap?) || m.slots[i].status.Playing?)
         && (!m'.slots[i].status.Playing? ==> m'.slots[i] == m.slots[i])
         && m'.slots[i] == m.slots[i].(status := m'.slots[i].status)
  }

  lemma StartMatchStarts(m: MatchV, p: Player, manager: bool)
    ensures var r := Act(m, p, p, manager, StartMatch);
      r.ok && r.sends && PlayStarts(m, r.m)
  {
    StartedStarts(m);
  }

  lemma StartedStarts(m: MatchV)
    ensures PlayStarts(m, Started(m))
  {
    forall i | 0 <= i < |m.slots|
      ensures Started(m).slots[i] == SlotStarted(m.slots[i])
    {
    }
  }

  /** `!mp start force` starts whatever the slots say, and `!mp start` when no timer runs and nobody is not
      ready. With a delay a timer is set, and with `cancel` it is cleared. */
  lemma StartCommandStarts(m: MatchV, p: Player, host: Player?, manager: bool, kind: StartKind)
    requires Allowed(m, p, host, manager, MpStart(kind))
    ensures var r := Act(m, p, host, manager, MpStart(kind));
      && r.ok
      && (kind == Force ==> r.sends && PlayStarts(m, r.m))
      && (kind == Now ==>
            if m.starting == None && forall i :: 0 <= i < |m.slots| ==> m.slots[i].status != NotReady
            then r.sends && PlayStarts(m, r.m)
            else !r.sends && r.m == m)
      && (kind == Cancel ==> !r.sends && r.m == m.(starting := None))
      && (kind.After? ==>
            && !r.sends
            && r.m == m.(starting := if m.starting == None && 0 < kind.seconds <= 300 then Some(p) else m.starting))
  {
    StartedStarts(m);
  }

  /** The timer starts the play while the player who set it is in the match, and is used up either way. */
  lemma TimerStarts(m: MatchV)
    ensures var r := TimerFired(m);
      && r.ok && r.m.starting == None
      && if exists p, j :: m.starting == Some(p) && Own(m, p, j)
         then r.sends && PlayStarts(m.(starting := None), r.m)
         else !r.sends && r.m == m.(starting := None)
  {
    StartedStarts(m.(starting := None));
    if m.starting.Some? {
      match GetSlot(m, m.starting.value)
      case Some(j) => assert Own(m, m.starting.value, j);
      case None =>
        forall p, j | m.starting == Some(p) && Own(m, p, j)
          ensures false
        {
          assert Occupies(m, j, p);
        }
    }
  }

  /** Who finishes while others play waits for them; the last to finish ends the play for all. */
  lemma CompleteEnds(m: MatchV, p: Player, host: Player?, manager: bool, j: nat)
    requires Own(m, p, j)
    ensures var r := Act(m, p, host, manager, CompletePlay);
      && r.ok
      && if exists k :: 0 <= k < |m.slots| && k != j && m.slots[k].status.Playing?
         then !r.sends && r.m == m.(slots := m.slots[j := m.slots[j].(status := Complete)])
         else r.sends && PlayEnds(m, j, r.m)
  {
    OwnIsFirst(m, p, j);
    var done := m.(slots := m.slots[j := m.slots[j].(status := Complete)]);
    assert forall k :: 0 <= k < |m.slots| && k != j ==> done.slots[k] == m.slots[k];
  }

  ghost predicate PlayEnds(m: MatchV, j: nat, m': MatchV) {
    && !m'.inProgress && m' == m.(slots := m'.slots, inProgress := false) && |m'.slots| == |m.slots|
    && forall i :: 0 <= i < |m.slots| ==>
         && !m'.slots[i].status.Playing? && !m'.slots[i].status.Complete?
         && m'.slots[i] == m.slots[i].(loaded := false, skipped := false,
              status := if i == j || m.slots[i].status.Complete? then NotReady else m.slots[i].status)
  }

  /** An abort unreadies those who play. */
  lemma AbortEnds(m: MatchV, p: Player, host: Player?, manager: bool)
    requires Allowed(m, p, host, manager, MpAbort)
    ensures var r := Act(m, p, host, manager, MpAbort);
      && r.ok && r.sends == m.inProgress && |r.m.slots| == |m.slots|
      && r.m == m.(slots := r.m.slots, inProgress := false)
      && forall i :: 0 <= i < |m.slots| ==>
           r.m.slots[i] ==
             if !m.inProgress then m.slots[i]
             else m.slots[i].(loaded := false, skipped := false,
               status := if m.slots[i].status.Playing? then NotReady else m.slots[i].status)
  {
  }

  // ---------------------------------------------------------------- a player's own slot

  lemma OwnIsFirst(m: MatchV, p: Player, j: nat)
    requires Own(m, p, j)
    ensures GetSlot(m, p) == Some(j)
  {
    assert Occupies(m, j, p);
  }

  lemma AwayHasNone(m: MatchV, p: Player)
    requires Away(m, p)
    ensures GetSlot(m, p) == None
  {
  }

  /** What a packet about the player's own slot makes of it. */
  function OwnChange(s: SlotV, a: Action): SlotV
    requires a.ReportState? || a.LoadComplete? || a.SkipRequest? || a.ChangeTeam?
  {
    match a
    case ReportState(IsReady) => s.(status := Ready)
    case ReportState(LacksMap) => s.(status := NoMap)
    case ReportState(_) => s.(status := NotReady)
    case LoadComplete => s.(loaded := true)
    case SkipRequest => s.(skipped := true)
    case ChangeTeam => s.(team := if s.team == Blue then Red else Blue)
  }

  lemma OwnSlotChanges(m: MatchV, p: Player, host: Player?, manager: bool, a: Action, j: nat)
    requires a.ReportState? || a.LoadComplete? || a.SkipRequest? || a.ChangeTeam?
    requires Own(m, p, j)
    ensures Act(m, p, host, manager, a) ==
      Result(m.(slots := m.slots[j := OwnChange(m.slots[j], a)]), true, a.ReportState? || a.ChangeTeam?)
  {
    OwnIsFirst(m, p, j);
  }

  /** A player without a slot makes these packets raise with nothing changed. */
  lemma AwayRaises(m: MatchV, p: Player, host: Player?, manager: bool, a: Action)
    requires a.ReportState? || a.LoadComplete? || a.SkipRequest? || a.ChangeTeam? || a.CompletePlay?
    requires Away(m, p)
    ensures Act(m, p, host, manager, a) == Result(m, false, false)
  {
    AwayHasNone(m, p);
  }

  /** The player ends in the requested slot as they were, if it was open and another; the old one is empty.
      A request for one's own slot, which is open only once it was locked and reopened, gives the seat up. */
  lemma ChangeSlotMoves(m: MatchV, p: Player, host: Player?, manager: bool, i: int)
    ensures var r := Act(m, p, host, manager, ChangeSlot(i));
      if Numbered(m, i) && m.slots[i].status.Open?
      then
        && (Away(m, p) ==> r == Result(m, false, false))
        && forall j :: Own(m, p, j) ==> r.ok && r.sends && Moves(m, i, j, r.m)
      else r == Result(m, true, false)
  {
    if Away(m, p) {
      AwayHasNone(m, p);
    }
    forall j | Own(m, p, j)
      ensures GetSlot(m, p) == Some(j)
    {
      OwnIsFirst(m, p, j);
    }
  }

  ghost predicate Moves(m: MatchV, i: nat, j: nat, m': MatchV)
    requires i < |m.slots| && j < |m.slots|
  {
    && m' == m.(slots := m'.slots) && |m'.slots| == |m.slots|
    && m'.slots[j] == SlotV(null, Open, Neutral, {}, false, false)
    && (i != j ==> m'.slots[i] == m.slots[j].(loaded := m.slots[i].loaded, skipped := m.slots[i].skipped))
    && forall k :: 0 <= k < |m.slots| && k != i && k != j ==> m'.slots[k] == m.slots[k]
  }

  // ---------------------------------------------------------------- slots by number, host and referees

  /** Only the slot's status changes: a locked one opens, any other locks, and the host's own is spared. */
  lemma LockToggles(m: MatchV, host: Player, manager: bool, i: int)
    ensures Act(m, host, host, manager, Lock(i)) ==
      if !Numbered(m, i) || (m.slots[i].player == host && m.slots[i].status != Locked) then Result(m, true, false)
      else
        var status := if m.slots[i].status == Locked then Open else Locked;
        Result(m.(slots := m.slots[i := m.slots[i].(status := status)]), true, true)
  {
  }

  lemma AllLock(m: MatchV, p: Player, host: Player?, manager: bool, lock: bool)
    requires Allowed(m, p, host, manager, if lock then MpLock else MpUnlock)
    ensures var r := Act(m, p, host, manager, if lock then MpLock else MpUnlock);
      var (from, to) := if lock then (Open, Locked) else (Locked, Open);
      && r.ok && r.sends && r.m == m.(slots := r.m.slots) && |r.m.slots| == |m.slots|
      && forall i :: 0 <= i < |m.slots| ==>
           r.m.slots[i] == m.slots[i].(status := if m.slots[i].status == from then to else m.slots[i].status)
  {
  }

  /** Host goes to whoever sits in the slot, or to the named player when they sit in one and are not host. */
  lemma HostMoves(m: MatchV, p: Player, host: Player?, manager: bool, i: int, target: Player)
    ensures Act(m, p, p, manager, TransferHost(i)) ==
      if Numbered(m, i) && m.slots[i].player != null then Result(m.(hostId := m.slots[i].player.id), true, true)
      else Result(m, true, false)
    ensures Allowed(m, p, host, manager, MpHost(target)) ==>
      Act(m, p, host, manager, MpHost(target)) ==
        if target != host && !Away(m, target) then Result(m.(hostId := target.id), true, true)
        else Result(m, true, false)
  {
    AwayIsNotInside(m, target);
  }

  lemma AwayIsNotInside(m: MatchV, p: Player)
    ensures Away(m, p) <==> !Inside(m, p)
  {
    if !Inside(m, p) {
      forall k | 0 <= k < |m.slots|
        ensures m.slots[k].player != p
      {
        assert !Occupies(m, k, p);
      }
    }
  }

  /** A referee is added from among the players, and removed unless they are the host; silently. */
  lemma RefereesChange(m: MatchV, p: Player, host: Player?, manager: bool, target: Player)
    requires Allowed(m, p, host, manager, MpAddref(target))
    ensures var r := Act(m, p, host, manager, MpAddref(target));
      && r.ok && !r.sends && r.m == m.(referees := r.m.referees)
      && forall x: Player :: x in r.m.referees <==>
           x in m.referees || (x == target && target != host && !Away(m, target))
    ensures var r := Act(m, p, host, manager, MpRmref(target));
      && r.ok && !r.sends && r.m == m.(referees := r.m.referees)
      && forall x: Player :: x in r.m.referees <==> x in m.referees && !(x == target && target != host)
  {
    AwayIsNotInside(m, target);
  }

  // ---------------------------------------------------------------- mods, teams and settings

  /** Mods go where freemods say: to the match, from its host; or the speed-changing ones of the host to the
      match, and everyone's others to their slot. */
  lemma ModsChange(m: MatchV, p: Player, host: Player, manager: bool, mods: Mods)
    ensures var r := Act(m, p, host, manager, ChangeMods(mods));
      if m.freemods then OwnModsSet(m, p, host, mods, r)
      else r == if p == host then Result(m.(mods := mods), true, true) else Result(m, true, false)
    ensures Allowed(m, p, host, manager, MpMods(mods)) ==>
      var r := Act(m, p, host, manager, MpMods(mods));
      if m.freemods then OwnModsSet(m, p, host, mods, r) else r == Result(m.(mods := mods), true, true)
  {
    SplitMods(mods);
    if Away(m, p) {
      AwayHasNone(m, p);
    }
    forall j | Own(m, p, j)
      ensures GetSlot(m, p) == Some(j)
    {
      OwnIsFirst(m, p, j);
    }
  }

  ghost predicate OwnModsSet(m: MatchV, p: Player, host: Player, mods: Mods, r: Result) {
    var matchMods := if p == host then Speed(mods) else m.mods;
    && (Away(m, p) ==> r == Result(m.(mods := matchMods), false, false))
    && forall j :: Own(m, p, j) ==>
         r == Result(m.(mods := matchMods, slots := m.slots[j := m.slots[j].(mods := Other(mods))]), true, true)
  }

  /** What turning freemods on or off leaves: each occupied slot with the same mods, and the match with the rest. */
  ghost predicate FreemodsTurned(m: MatchV, host: Player, on: bool, m': MatchV) {
    && m' == m.(freemods := on, mods := m'.mods, slots := m'.slots) && |m'.slots| == |m.slots|
    && (on ==> m'.mods == Speed(m.mods))
    && (!on ==> forall j :: Own(m, host, j) ==> m'.mods == Speed(m.mods) + m.slots[j].mods)
    && forall i :: 0 <= i < |m.slots| ==>
         m'.slots[i] == m.slots[i].(mods :=
           if m.slots[i].player == null then m.slots[i].mods else if on then Other(m.mods) else {})
  }

  lemma FreemodsTurn(m: MatchV, host: Player, on: bool)
    ensures on ==> FreemodsTurned(m, host, on, FreemodsEnabled(m))
    ensures !on && Away(m, host) ==> FreemodsDisabled(m, host) == Result(m.(freemods := false), false, false)
    ensures !on && !Away(m, host) ==>
      var r := FreemodsDisabled(m, host);
      r.ok && r.sends && FreemodsTurned(m, host, on, r.m)
  {
    SplitMods(m.mods);
    AwayIsNotInside(m, host);
    forall j | Own(m, host, j)
      ensures GetSlot(m.(freemods := false), host) == Some(j)
    {
      OwnIsFirst(m.(freemods := false), host, j);
    }
    if Away(m, host) {
      AwayHasNone(m.(freemods := false), host);
    } else {
      AwayIsNotInside(m.(freemods := false), host);
    }
  }

  lemma FreemodsCommandTurns(m: MatchV, p: Player, host: Player, manager: bool, on: bool)
    requires Allowed(m, p, host, manager, MpFreemods(on))
    ensures var r := Act(m, p, host, manager, MpFreemods(on));
      if on || !Away(m, host) then r.ok && r.sends && FreemodsTurned(m, host, on, r.m)
      else r == Result(m.(freemods := false), false, false)
  {
    FreemodsTurn(m, host, on);
  }

  /** A pool pick sets the match's mods; if freemods were on they go off, and the slots' mods with them. */
  lemma PickSets(m: MatchV, p: Player, host: Player?, manager: bool, mods: Mods)
    requires Allowed(m, p, host, manager, MpPick(mods))
    ensures var r := Act(m, p, host, manager, MpPick(mods));
      && r.ok && r.sends && r.m == m.(freemods := false, mods := mods, slots := r.m.slots) && |r.m.slots| == |m.slots|
      && forall i :: 0 <= i < |m.slots| ==>
           r.m.slots[i] == m.slots[i].(mods := if m.freemods && m.slots[i].player != null then {} else m.slots[i].mods)
  {
  }

  /** The sides of a team type: red for everyone, or none. */
  function SideIn(s: SlotV, t: TeamType): Team {
    if s.player == null then s.team else if IsTeamMode(t) then Red else Neutral
  }

  /** `!mp teams` takes everyone's side and, from a running scrim, its points. */
  lemma TeamsChange(m: MatchV, p: Player, host: Player?, manager: bool, t: TeamType)
    requires Allowed(m, p, host, manager, MpTeams(t))
    ensures var r := Act(m, p, host, manager, MpTeams(t));
      && r.ok && r.sends && |r.m.slots| == |m.slots|
      && r.m == m.(teamType := t, slots := r.m.slots,
                   scrim := if m.scrim.running then m.scrim.(points := map[], winners := []) else m.scrim)
      && forall i :: 0 <= i < |m.slots| ==> r.m.slots[i] == m.slots[i].(team := SideIn(m.slots[i], t))
  {
  }

  /** The new settings, where freemods can be changed: a cleared map unreadies, and the team type stays
      while a scrim runs. */
  ghost predicate SettingsTaken(m: MatchV, clearsMap: bool, t: TeamType, m': MatchV) {
    var switches := t != m.teamType && !m.scrim.running;
    && m' == m.(teamType := if switches then t else m.teamType, slots := m'.slots) && |m'.slots| == |m.slots|
    && forall i :: 0 <= i < |m.slots| ==>
         m'.slots[i] == m.slots[i].(
           status := if clearsMap && m.slots[i].status == Ready then NotReady else m.slots[i].status,
           team := if switches then SideIn(m.slots[i], t) else m.slots[i].team)
  }

  lemma SettingsTake(m: MatchV, clearsMap: bool, t: TeamType)
    ensures SettingsTaken(m, clearsMap, t, SettingsSettled(m, clearsMap, t))
  {
  }

  /** Freemods first, and then map and team type; without a slot of the host's, freemods cannot go off and
      the rest is not reached. */
  lemma SettingsChange(m: MatchV, host: Player, manager: bool, freemods: bool, clearsMap: bool, t: TeamType)
    ensures var r := Act(m, host, host, manager, ChangeSettings(freemods, clearsMap, t));
      if m.freemods && !freemods && Away(m, host) then r == Result(m.(freemods := false), false, false)
      else
        && r.ok && r.sends
        && exists mid ::
             && (if freemods == m.freemods then mid == m else FreemodsTurned(m, host, freemods, mid))
             && SettingsTaken(mid, clearsMap, t, r.m)
  {
    FreemodsTurn(m, host, freemods);
    var mid := FreemodsChanged(m, host, freemods).m;
    SettingsTake(mid, clearsMap, t);
  }

  // ---------------------------------------------------------------- scrims

  /** An odd best-of under sixteen starts a scrim when none runs, for a majority of its points. */
  lemma ScrimStarts(m: MatchV, p: Player, host: Player?, manager: bool, bestOf: nat)
    requires Allowed(m, p, host, manager, MpScrim(bestOf))
    ensures var r := Act(m, p, host, manager, MpScrim(bestOf));
      && r.ok && !r.sends && r.m == m.(scrim := r.m.scrim)
      && if bestOf < 16 && bestOf % 2 == 1 && !m.scrim.running
         then
           && r.m.scrim == m.scrim.(running := true, winningPts := r.m.scrim.winningPts)
           && 2 * r.m.scrim.winningPts == bestOf + 1
         else r.m.scrim == m.scrim
  {
  }

  lemma ScrimStops(m: MatchV, p: Player, host: Player?, manager: bool)
    requires Allowed(m, p, host, manager, MpEndscrim)
    ensures Act(m, p, host, manager, MpEndscrim) ==
      Result(m.(scrim := if m.scrim.running then Scrim(false, map[], [], m.scrim.winningPts) else m.scrim), true, false)
  {
  }

  /** A finished scrim resumes; a running one loses its last point, unless that was a tie. Only for the host. */
  lemma RematchUndoes(m: MatchV, p: Player, host: Player, manager: bool)
    requires Allowed(m, p, host, manager, MpRematch)
    ensures var r := Act(m, p, host, manager, MpRematch);
      var s, s', n := m.scrim, r.m.scrim, |m.scrim.winners|;
      && r.ok && !r.sends && r.m == m.(scrim := s') && s'.winningPts == s.winningPts
      && if p != host || (!s.running && s.winningPts == 0) || (s.running && (n == 0 || s.winners[n - 1] == None))
         then s' == s
         else if !s.running then s' == s.(running := true)
         else
           && s'.running && s'.winners == s.winners[..n - 1]
           && forall side :: Tally(s', side) == Tally(s, side) - if s.winners[n - 1] == Some(side) then 1 else 0
  {
  }
}
