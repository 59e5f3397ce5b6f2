/** What every action on a match keeps: seats, the mods partition and the scrim's ledger. */
module MatchSafety {
  import opened Wrappers
  import opened Multiplayer

  // ---------------------------------------------------------------- soundness, with no assumption

  /** A slot that reads as having a player has one, playing only while the match is in progress, on a
      side when there are teams; an empty slot has no mods. */
  predicate SlotSound(s: SlotV, inProgress: bool, t: TeamType) {
    && (HasPlayerBit(s.status) ==> s.player != null)
    && (s.status.Playing? ==> inProgress)
    && (Teams(t) && s.player != null ==> !s.team.Neutral?)
    && (s.player == null ==> s.mods == {})
  }

  predicate DistinctPlayers(m: MatchV) {
    forall i, j :: 0 <= i < j < |m.slots| && m.slots[i].player != null ==> m.slots[i].player != m.slots[j].player
  }

  predicate Sound(m: MatchV) {
    |m.slots| == SLOTS && DistinctPlayers(m) && SlotsSound(m)
  }

  predicate SamePlayers(m: MatchV, m': MatchV) {
    |m.slots| == |m'.slots| && forall i :: 0 <= i < |m.slots| ==> m'.slots[i].player == m.slots[i].player
  }

  function Occupants(m: MatchV): (r: set<Player>)
    ensures forall q <- r :: Inside(m, q)
    ensures forall i :: 0 <= i < |m.slots| && m.slots[i].player != null ==> m.slots[i].player in r
  {
    var r := set i | 0 <= i < |m.slots| && m.slots[i].player != null :: m.slots[i].player as Player;
    assert forall i :: 0 <= i < |m.slots| && m.slots[i].player != null ==> Occupies(m, i, m.slots[i].player);
    r
  }

  lemma InsideIsOccupant(m: MatchV, q: Player)
    ensures Inside(m, q) <==> q in Occupants(m)
  {
  }

  lemma SamePlayersSameOccupants(m: MatchV, m': MatchV)
    requires SamePlayers(m, m')
    ensures Occupants(m') == Occupants(m)
    ensures DistinctPlayers(m) ==> DistinctPlayers(m')
  {
    forall q: Player
      ensures q in Occupants(m') <==> q in Occupants(m)
    {
      if i :| 0 <= i < |m.slots| && Occupies(m, i, q) {
        assert m'.slots[i].player == q;
      }
      if i :| 0 <= i < |m'.slots| && Occupies(m', i, q) {
        assert m.slots[i].player == q;
      }
    }
  }

  /** The actions that move players between slots. */
  predicate Moves(a: Action) {
    a.ChangeSlot?
  }

  lemma SettingsKeepPlayers(m: MatchV, host: Player, freemods: bool, clearsMap: bool, t: TeamType)
    ensures SamePlayers(m, ActSettings(m, host, freemods, clearsMap, t).m)
  {
    var r := FreemodsChanged(m, host, freemods);
    assert SamePlayers(m, r.m);
    SettledKeepsPlayers(r.m, clearsMap, t);
  }

  lemma SettledKeepsPlayers(m: MatchV, clearsMap: bool, t: TeamType)
    ensures SamePlayers(m, SettingsSettled(m, clearsMap, t))
  {
  }

  lemma HostKeepsPlayers(m: MatchV, host: Player, a: Action)
    requires HostOnly(a)
    ensures SamePlayers(m, ActAsHost(m, host, a).m)
  {
    if a.ChangeSettings? {
      SettingsKeepPlayers(m, host, a.freemods, a.clearsMap, a.teamType);
    }
  }

  lemma PacketKeepsPlayers(m: MatchV, p: Player, host: Player?, a: Action)
    requires !HostOnly(a) && !Command(a) && !Moves(a)
    ensures SamePlayers(m, ActPacket(m, p, host, a).m)
  {
  }

  lemma CommandKeepsPlayers(m: MatchV, p: Player, host: Player, a: Action)
    requires Command(a)
    ensures SamePlayers(m, ActOnCommand(m, p, host, a).m)
  {
    if ModsCommand(a) {
      ModsCommandKeepsSeats(m, p, host, a);
    } else if !ScrimCommand(a) {
      PlainCommandKeepsPlayers(m, p, host, a);
    }
  }

  /** The players stay where they are, and so does what holds of slots alone. */
  predicate SameSeats(m: MatchV, m': MatchV) {
    SamePlayers(m, m') && (SlotsSound(m) ==> SlotsSound(m')) && (Tidy(m) ==> Tidy(m'))
  }

  lemma ModsCommandKeepsSeats(m: MatchV, p: Player, host: Player, a: Action)
    requires ModsCommand(a)
    ensures SameSeats(m, ActModsCommand(m, p, host, a).m)
  {
    match a
    case MpMods(mods) => FreeModsKeepSeats(m, p, host, mods);
    case MpFreemods(on) => FreemodsKeepSeats(m, host);
    case MpPick(mods) => ClearingKeepsSeats(m.(freemods := false));
  }

  lemma FreeModsKeepSeats(m: MatchV, p: Player, host: Player?, mods: Mods)
    ensures SameSeats(m, ActFreeMods(m, p, host, mods).m)
  {
  }

  lemma ClearingKeepsSeats(m: MatchV)
    ensures SameSeats(m, ModsCleared(m))
  {
  }

  lemma FreemodsKeepSeats(m: MatchV, host: Player)
    ensures SameSeats(m, FreemodsEnabled(m)) && SameSeats(m, FreemodsDisabled(m, host).m)
  {
  }

  lemma PlainCommandKeepsPlayers(m: MatchV, p: Player, host: Player, a: Action)
    requires Command(a) && !ModsCommand(a) && !ScrimCommand(a)
    ensures SamePlayers(m, ActCommand(m, p, host, a).m)
  {
  }

  lemma ActKeepsPlayers(m: MatchV, p: Player, host: Player?, manager: bool, a: Action)
    requires !Moves(a)
    ensures SamePlayers(m, Act(m, p, host, manager, a).m)
  {
    if HostOnly(a) {
      if host != null {
        HostKeepsPlayers(m, host, a);
      }
    } else if Command(a) {
      if host != null {
        CommandKeepsPlayers(m, p, host, a);
      }
    } else {
      PacketKeepsPlayers(m, p, host, a);
    }
  }

  lemma ChangeSlotSound(m: MatchV, p: Player, i: int)
    requires Sound(m)
    ensures var m' := ActChangeSlot(m, p, i).m; Sound(m') && Occupants(m') <= Occupants(m)
  {
    var m' := ActChangeSlot(m, p, i).m;
    forall q | q in Occupants(m')
      ensures q in Occupants(m)
    {
      var k :| 0 <= k < |m'.slots| && Occupies(m', k, q);
      assert m.slots[if m' != m && k == i then GetSlot(m, p).value else k].player == q;
    }
  }

  predicate SlotsSound(m: MatchV) {
    forall i :: 0 <= i < |m.slots| ==> SlotSound(m.slots[i], m.inProgress, m.teamType)
  }

  lemma SettingsSound(m: MatchV, host: Player, freemods: bool, clearsMap: bool, t: TeamType)
    requires SlotsSound(m)
    ensures SlotsSound(ActSettings(m, host, freemods, clearsMap, t).m)
  {
    var r := FreemodsChanged(m, host, freemods);
    assert SlotsSound(r.m);
    SettledSound(r.m, clearsMap, t);
  }

  lemma SettledSound(m: MatchV, clearsMap: bool, t: TeamType)
    requires SlotsSound(m)
    ensures SlotsSound(SettingsSettled(m, clearsMap, t))
  {
  }

  lemma HostSlotsSound(m: MatchV, host: Player, a: Action)
    requires SlotsSound(m) && HostOnly(a)
    ensures SlotsSound(ActAsHost(m, host, a).m)
  {
    if a.ChangeSettings? {
      SettingsSound(m, host, a.freemods, a.clearsMap, a.teamType);
    }
  }

  lemma PacketSlotsSound(m: MatchV, p: Player, host: Player?, a: Action)
    requires SlotsSound(m) && !HostOnly(a) && !Command(a) && !Moves(a)
    ensures SlotsSound(ActPacket(m, p, host, a).m)
  {
  }

  lemma CommandSlotsSound(m: MatchV, p: Player, host: Player, a: Action)
    requires SlotsSound(m) && Command(a)
    ensures SlotsSound(ActOnCommand(m, p, host, a).m)
  {
    if ModsCommand(a) {
      ModsCommandKeepsSeats(m, p, host, a);
    } else if !ScrimCommand(a) {
      match a
      case MpStart(kind) => StartSound(m, p, kind);
      case MpAbort => AbortSound(m);
      case MpTeams(t) => TeamsSound(m, t);
      case _ =>
    }
  }

  lemma StartSound(m: MatchV, p: Player, kind: StartKind)
    requires SlotsSound(m)
    ensures SlotsSound(ActMpStart(m, p, kind).m)
  {
  }

  lemma AbortSound(m: MatchV)
    requires SlotsSound(m)
    ensures SlotsSound(Aborted(m).m)
  {
  }

  lemma TeamsSound(m: MatchV, t: TeamType)
    requires SlotsSound(m)
    ensures SlotsSound(TeamsCommanded(m, t))
  {
  }

  lemma ActSlotsSound(m: MatchV, p: Player, host: Player?, manager: bool, a: Action)
    requires SlotsSound(m) && !Moves(a)
    ensures SlotsSound(Act(m, p, host, manager, a).m)
  {
    if HostOnly(a) {
      if host != null {
        HostSlotsSound(m, host, a);
      }
    } else if Command(a) {
      if host != null {
        CommandSlotsSound(m, p, host, a);
      }
    } else {
      PacketSlotsSound(m, p, host, a);
    }
  }

  /** Every action keeps a match sound and seats nobody new, whoever acts and whether or not it raises. */
  lemma ActSound(m: MatchV, p: Player, host: Player?, manager: bool, a: Action)
    requires Sound(m)
    ensures var m' := Act(m, p, host, manager, a).m; Sound(m') && Occupants(m') <= Occupants(m)
  {
    if Moves(a) {
      ChangeSlotSound(m, p, a.slotId);
    } else {
      ActKeepsPlayers(m, p, host, manager, a);
      SamePlayersSameOccupants(m, Act(m, p, host, manager, a).m);
      ActSlotsSound(m, p, host, manager, a);
    }
  }

  lemma TimerSound(m: MatchV)
    requires Sound(m)
    ensures var m' := TimerFired(m).m; Sound(m') && SamePlayers(m, m')
  {
  }

  // ---------------------------------------------------------------- seats, when nothing occupied is reopened

  /** An open slot is empty. */
  predicate Tidy(m: MatchV) {
    forall i :: 0 <= i < |m.slots| && m.slots[i].status.Open? ==> m.slots[i].player == null
  }

  predicate HostSeated(m: MatchV) {
    exists i :: 0 <= i < |m.slots| && m.slots[i].player != null && m.slots[i].player.id == m.hostId
  }

  predicate RefereesSeated(m: MatchV) {
    m.referees <= Occupants(m)
  }

  /** The slot that an action switches from locked to open, if its player is still in it. */
  predicate Reopens(m: MatchV, p: Player, host: Player?, manager: bool, a: Action) {
    match a
    case Lock(i) => p == host && InRange(m, i) && m.slots[i].status.Locked? && m.slots[i].player != null
    case MpUnlock =>
      && host != null && (p in m.referees + {host} || manager)
      && exists i :: 0 <= i < |m.slots| && m.slots[i].status.Locked? && m.slots[i].player != null
    case _ => false
  }

  lemma ChangeSlotTidy(m: MatchV, p: Player, i: int)
    requires Sound(m) && Tidy(m)
    ensures var m' := ActChangeSlot(m, p, i).m; Tidy(m') && Occupants(m') == Occupants(m)
  {
    var m' := ActChangeSlot(m, p, i).m;
    ChangeSlotSound(m, p, i);
    forall q | q in Occupants(m)
      ensures q in Occupants(m')
    {
      var k :| 0 <= k < |m.slots| && Occupies(m, k, q);
      assert m'.slots[if m' != m && k == GetSlot(m, p).value then i else k].player == q;
    }
  }

  /** An action leaves an occupied slot open if and only if it reopens one under its player. */
  lemma TidyKeptExactly(m: MatchV, p: Player, host: Player?, manager: bool, a: Action)
    requires Sound(m) && Tidy(m)
    ensures Tidy(Act(m, p, host, manager, a).m) <==> !Reopens(m, p, host, manager, a)
  {
    var m' := Act(m, p, host, manager, a).m;
    match a
    case ChangeSlot(i) => ChangeSlotTidy(m, p, i);
    case Lock(i) =>
      if Reopens(m, p, host, manager, a) {
        assert m'.slots[i].status.Open? && m'.slots[i].player != null;
      }
    case MpUnlock =>
      if Reopens(m, p, host, manager, a) {
        var i :| 0 <= i < |m.slots| && m.slots[i].status.Locked? && m.slots[i].player != null;
        assert m'.slots[i].status.Open? && m'.slots[i].player != null;
      }
    case _ => TidyKeptByOthers(m, p, host, manager, a);
  }

  lemma SettingsTidy(m: MatchV, host: Player, freemods: bool, clearsMap: bool, t: TeamType)
    requires Tidy(m)
    ensures Tidy(ActSettings(m, host, freemods, clearsMap, t).m)
  {
    var r := FreemodsChanged(m, host, freemods);
    assert Tidy(r.m);
    SettledTidy(r.m, clearsMap, t);
  }

  lemma SettledTidy(m: MatchV, clearsMap: bool, t: TeamType)
    requires Tidy(m)
    ensures Tidy(SettingsSettled(m, clearsMap, t))
  {
  }

  lemma PacketTidy(m: MatchV, p: Player, host: Player?, a: Action)
    requires Tidy(m) && !HostOnly(a) && !Command(a) && !a.ChangeSlot?
    ensures Tidy(ActPacket(m, p, host, a).m)
  {
  }

  lemma CommandTidy(m: MatchV, p: Player, host: Player, a: Action)
    requires Tidy(m) && Command(a) && !a.MpUnlock?
    ensures Tidy(ActOnCommand(m, p, host, a).m)
  {
    if ModsCommand(a) {
      ModsCommandKeepsSeats(m, p, host, a);
    } else if !ScrimCommand(a) {
      PlainCommandTidy(m, p, host, a);
    }
  }

  lemma PlainCommandTidy(m: MatchV, p: Player, host: Player, a: Action)
    requires Tidy(m) && Command(a) && !ModsCommand(a) && !ScrimCommand(a) && !a.MpUnlock?
    ensures Tidy(ActCommand(m, p, host, a).m)
  {
  }

  lemma TidyKeptByOthers(m: MatchV, p: Player, host: Player?, manager: bool, a: Action)
    requires Tidy(m) && !a.ChangeSlot? && !a.Lock? && !a.MpUnlock?
    ensures Tidy(Act(m, p, host, manager, a).m)
  {
    if HostOnly(a) {
      if host != null && a.ChangeSettings? {
        SettingsTidy(m, host, a.freemods, a.clearsMap, a.teamType);
      }
    } else if Command(a) {
      if host != null {
        CommandTidy(m, p, host, a);
      }
    } else {
      PacketTidy(m, p, host, a);
    }
  }

  /** What a seated player's action keeps of the seats: the same occupants, a seated host, seated referees. */
  lemma ActSeats(m: MatchV, p: Player, host: Player?, manager: bool, a: Action)
    requires Sound(m) && Tidy(m) && HostSeated(m) && RefereesSeated(m)
    ensures var m' := Act(m, p, host, manager, a).m;
      Occupants(m') == Occupants(m) && HostSeated(m') && RefereesSeated(m')
  {
    var m' := Act(m, p, host, manager, a).m;
    if Moves(a) {
      ChangeSlotTidy(m, p, a.slotId);
    } else {
      ActKeepsPlayers(m, p, host, manager, a);
      SamePlayersSameOccupants(m, m');
    }
    HostStaysSeated(m, p, host, manager, a);
    RefereesStaySeated(m, p, host, manager, a);
  }

  lemma HostStaysSeated(m: MatchV, p: Player, host: Player?, manager: bool, a: Action)
    requires HostSeated(m)
    requires Occupants(Act(m, p, host, manager, a).m) == Occupants(m)
    ensures HostSeated(Act(m, p, host, manager, a).m)
  {
    var m' := Act(m, p, host, manager, a).m;
    var k :| 0 <= k < |m.slots| && m.slots[k].player != null && m.slots[k].player.id == m.hostId;
    var q: Player := m.slots[k].player;
    assert Occupies(m, k, q);
    HostChanges(m, p, host, manager, a);
    if m'.hostId != m.hostId {
      q :| Inside(m, q) && q.id == m'.hostId;
    }
    assert Inside(m', q);
    var j :| 0 <= j < |m'.slots| && Occupies(m', j, q);
  }

  lemma HostChanges(m: MatchV, p: Player, host: Player?, manager: bool, a: Action)
    ensures var m' := Act(m, p, host, manager, a).m;
      m'.hostId != m.hostId ==> exists q: Player :: Inside(m, q) && q.id == m'.hostId
  {
    if a.TransferHost? {
      if InRange(m, a.slotId) && m.slots[a.slotId].player != null {
        assert Occupies(m, a.slotId, m.slots[a.slotId].player);
      }
    } else if !a.MpHost? {
      PostsUntouched(m, p, host, manager, a);
    }
  }

  /** Only the host commands and the referee commands change who has a post. */
  lemma PostsUntouched(m: MatchV, p: Player, host: Player?, manager: bool, a: Action)
    ensures var m' := Act(m, p, host, manager, a).m;
      && (!a.TransferHost? && !a.MpHost? ==> m'.hostId == m.hostId)
      && (!a.MpAddref? ==> m'.referees <= m.referees)
  {
    if HostOnly(a) {
      if host != null {
        HostLeavesRest(m, host, a);
      }
    } else if Command(a) {
      if host != null {
        CommandPosts(m, p, host, a);
      }
    } else {
      PacketLeavesRest(m, p, host, a);
    }
  }

  lemma HostLeavesRest(m: MatchV, host: Player, a: Action)
    requires HostOnly(a)
    ensures var m' := ActAsHost(m, host, a).m;
      && m'.referees == m.referees && m'.scrim == m.scrim && (m'.teamType == m.teamType || !m.scrim.running)
      && (!a.TransferHost? ==> m'.hostId == m.hostId)
  {
    if a.ChangeSettings? {
      var r := FreemodsChanged(m, host, a.freemods);
      assert r.m.referees == m.referees && r.m.scrim == m.scrim && r.m.teamType == m.teamType && r.m.hostId == m.hostId;
    }
  }

  lemma PacketLeavesRest(m: MatchV, p: Player, host: Player?, a: Action)
    requires !HostOnly(a) && !Command(a)
    ensures var m' := ActPacket(m, p, host, a).m;
      m'.referees == m.referees && m'.hostId == m.hostId && m'.scrim == m.scrim && m'.teamType == m.teamType
  {
    match a
    case ChangeSlot(i) => assert ActChangeSlot(m, p, i).m == m.(slots := ActChangeSlot(m, p, i).m.slots);
    case CompletePlay => CompleteLeavesRest(m, p);
    case _ =>
  }

  lemma CompleteLeavesRest(m: MatchV, p: Player)
    ensures var m' := ActComplete(m, p).m; m' == m.(slots := m'.slots, inProgress := m'.inProgress)
  {
  }

  lemma CommandPosts(m: MatchV, p: Player, host: Player, a: Action)
    requires Command(a)
    ensures var m' := ActOnCommand(m, p, host, a).m;
      && (!a.MpHost? ==> m'.hostId == m.hostId)
      && (!a.MpAddref? ==> m'.referees <= m.referees)
  {
  }

  lemma RefereesStaySeated(m: MatchV, p: Player, host: Player?, manager: bool, a: Action)
    requires RefereesSeated(m)
    requires Occupants(Act(m, p, host, manager, a).m) == Occupants(m)
    ensures RefereesSeated(Act(m, p, host, manager, a).m)
  {
    if !a.MpAddref? {
      PostsUntouched(m, p, host, manager, a);
    }
  }

  /** None of the assertions on the acting player's or the host's slot can fail while both are seated. */
  lemma ActReturns(m: MatchV, p: Player, host: Player, manager: bool, a: Action)
    requires Inside(m, p) && Inside(m, host)
    ensures Act(m, p, host, manager, a).ok
  {
  }

  // ---------------------------------------------------------------- the mods partition

  /** Freemods on: the match has only speed-changing mods and the slots none of them. Off: all slots
      are without mods. */
  predicate Conforming(m: MatchV) {
    if m.freemods
    then m.mods <= SPEED_CHANGING_MODS && forall i :: 0 <= i < |m.slots| ==> m.slots[i].mods !! SPEED_CHANGING_MODS
    else forall i :: 0 <= i < |m.slots| ==> m.slots[i].mods == {}
  }

  /** The mods a seated player plays with. */
  function EffectiveMods(m: MatchV, i: nat): Mods
    requires i < |m.slots|
  {
    m.mods + m.slots[i].mods
  }

  lemma FreemodsDisabledConforms(m: MatchV, host: Player)
    requires Sound(m) && Inside(m, host)
    ensures Conforming(FreemodsDisabled(m, host).m)
  {
  }

  lemma SettingsConform(m: MatchV, host: Player, freemods: bool, clearsMap: bool, t: TeamType)
    requires Sound(m) && Conforming(m) && Inside(m, host)
    ensures Conforming(ActSettings(m, host, freemods, clearsMap, t).m)
  {
    var r := FreemodsChanged(m, host, freemods);
    assert Conforming(r.m) by {
      if freemods != m.freemods && !freemods {
        FreemodsDisabledConforms(m, host);
      }
    }
    SettledConforms(r.m, clearsMap, t);
  }

  lemma PacketConforms(m: MatchV, p: Player, host: Player?, a: Action)
    requires Sound(m) && Conforming(m) && !HostOnly(a) && !Command(a)
    ensures Conforming(ActPacket(m, p, host, a).m)
  {
    match a
    case ChangeSlot(i) => ChangeSlotConforms(m, p, i);
    case ChangeMods(mods) => ChangeModsConforms(m, p, host, mods);
    case CompletePlay => CompleteConforms(m, p);
    case _ =>
  }

  lemma ChangeSlotConforms(m: MatchV, p: Player, i: int)
    requires Sound(m) && Conforming(m)
    ensures Conforming(ActChangeSlot(m, p, i).m)
  {
  }

  lemma ChangeModsConforms(m: MatchV, p: Player, host: Player?, mods: Mods)
    requires Sound(m) && Conforming(m)
    ensures Conforming(ActChangeMods(m, p, host, mods).m)
  {
  }

  lemma CompleteConforms(m: MatchV, p: Player)
    requires Sound(m) && Conforming(m)
    ensures Conforming(ActComplete(m, p).m)
  {
  }

  lemma CommandConforms(m: MatchV, p: Player, host: Player, a: Action)
    requires Sound(m) && Conforming(m) && Inside(m, host) && Command(a)
    ensures Conforming(ActOnCommand(m, p, host, a).m)
  {
    if a.MpFreemods? && !a.on {
      FreemodsDisabledConforms(m, host);
    } else if !ModsCommand(a) && !ScrimCommand(a) {
      PlainCommandConforms(m, p, host, a);
    }
  }

  lemma PlainCommandConforms(m: MatchV, p: Player, host: Player, a: Action)
    requires Conforming(m) && Command(a) && !ModsCommand(a) && !ScrimCommand(a)
    ensures Conforming(ActCommand(m, p, host, a).m)
  {
  }

  /** Every action under a seated host keeps the partition. */
  lemma ActConforms(m: MatchV, p: Player, host: Player, manager: bool, a: Action)
    requires Sound(m) && Conforming(m) && Inside(m, host)
    ensures Conforming(Act(m, p, host, manager, a).m)
  {
    if HostOnly(a) {
      if a.ChangeSettings? {
        SettingsConform(m, host, a.freemods, a.clearsMap, a.teamType);
      }
    } else if Command(a) {
      CommandConforms(m, p, host, a);
    } else {
      PacketConforms(m, p, host, a);
    }
  }

  lemma SettledConforms(m: MatchV, clearsMap: bool, t: TeamType)
    requires Conforming(m)
    ensures Conforming(SettingsSettled(m, clearsMap, t))
  {
  }

  /** Switching freemods on changes nobody's effective mods. */
  lemma EnablingPreservesMods(m: MatchV, i: nat)
    requires Sound(m) && Conforming(m) && !m.freemods && i < |m.slots| && m.slots[i].player != null
    ensures EffectiveMods(FreemodsEnabled(m), i) == EffectiveMods(m, i)
  {
  }

  /** On and off again gives back the match's mods, and clears the slots. */
  lemma OnThenOffRestores(m: MatchV, host: Player)
    requires Sound(m) && Conforming(m) && !m.freemods && Inside(m, host)
    ensures var r := FreemodsDisabled(FreemodsEnabled(m), host);
      r.ok && r.m == m
  {
    var on := FreemodsEnabled(m);
    assert SamePlayers(m, on);
    SamePlayersSameOccupants(m, on);
    var i := GetSlot(on, host).value;
    assert on.slots[i].mods == m.mods - SPEED_CHANGING_MODS;
    var r := FreemodsDisabled(on, host);
    assert r.m.slots == m.slots;
  }

  /** A match is created conforming exactly when the client's data is. */
  lemma CreatedConforming(hostId: int, mods: Mods, freemods: bool, t: TeamType)
    ensures Sound(NewMatch(hostId, mods, freemods, t))
    ensures Conforming(NewMatch(hostId, mods, freemods, t)) <==> (freemods ==> mods <= SPEED_CHANGING_MODS)
  {
  }

  // ---------------------------------------------------------------- the scrim's ledger

  function Wins(winners: seq<Option<Side>>, side: Side): nat {
    if winners == [] then 0
    else Wins(winners[..|winners| - 1], side) + if winners[|winners| - 1] == Some(side) then 1 else 0
  }

  /** Each side's points are its number of occurrences among the winners. */
  predicate PointsMatch(s: Scrim) {
    && (forall side <- s.points :: s.points[side] == Wins(s.winners, side))
    && (forall i :: 0 <= i < |s.winners| && s.winners[i].Some? ==> s.winners[i].value in s.points)
  }

  /** While a scrim runs nobody has the points to win it; between scrims there are no points. */
  predicate NoChampion(s: Scrim) {
    && s.winningPts >= 0
    && (s.running ==> s.winningPts > 0 && forall side <- s.points :: s.points[side] < s.winningPts)
    && (!s.running ==> s.winners == [])
  }

  predicate Fits(side: Side, t: TeamType) {
    if Teams(t) then side in {TeamSide(Red), TeamSide(Blue)} else side.PlayerSide?
  }

  predicate WinnersFit(s: Scrim, t: TeamType) {
    forall i :: 0 <= i < |s.winners| && s.winners[i].Some? ==> Fits(s.winners[i].value, t)
  }

  predicate LedgerHolds(m: MatchV) {
    PointsMatch(m.scrim) && NoChampion(m.scrim) && WinnersFit(m.scrim, m.teamType)
  }

  lemma {:induction false} NoWins(winners: seq<Option<Side>>, side: Side)
    requires forall i :: 0 <= i < |winners| ==> winners[i] != Some(side)
    ensures Wins(winners, side) == 0
  {
    if winners != [] {
      NoWins(winners[..|winners| - 1], side);
    }
  }

  /** The same for a side nobody has looked up: it has no points and has won nothing. */
  lemma PointsOfAnySide(s: Scrim, side: Side)
    requires PointsMatch(s)
    ensures PointsOf(s, side) == Wins(s.winners, side)
  {
    if side !in s.points {
      NoWins(s.winners, side);
    }
  }

  lemma RematchKeeps(s: Scrim, t: TeamType)
    requires PointsMatch(s)
    ensures PointsMatch(Rematched(s))
    ensures NoChampion(s) ==> NoChampion(Rematched(s))
    ensures WinnersFit(s, t) ==> WinnersFit(Rematched(s), t)
  {
    var s' := Rematched(s);
    if s'.winners != s.winners {
      var last := s.winners[|s.winners| - 1].value;
      assert s'.points.Keys == s.points.Keys;
    }
  }

  lemma StartKeeps(s: Scrim, bestOf: nat)
    requires PointsMatch(s) && NoChampion(s)
    ensures PointsMatch(ScrimStarted(s, bestOf)) && NoChampion(ScrimStarted(s, bestOf))
    ensures ScrimStarted(s, bestOf).winners == s.winners
  {
  }

  /** The branch that cancels a running scrim is for a best-of without points to win, which would be one of
      minus two or minus one; the range check before it lets neither through, so no best-of cancels. */
  lemma CancelBranchIsDead(s: Scrim, bestOf: int)
    ensures WinningPts(bestOf) == 0 <==> bestOf in {-2, -1}
    ensures s.running ==> !ScrimSet(s, bestOf, 0).running && ScrimSet(s, bestOf, 0).winners == []
    ensures s.running ==> ScrimStarted(s, bestOf) == s
    ensures ScrimStarted(s, bestOf).winningPts == 0 ==> s.winningPts == 0
  {
  }

  /** Every action keeps the ledger. */
  lemma ActKeepsScrim(m: MatchV, p: Player, host: Player?, manager: bool, a: Action)
    requires LedgerHolds(m)
    ensures LedgerHolds(Act(m, p, host, manager, a).m)
  {
    match a
    case MpScrim(n) => StartKeeps(m.scrim, n);
    case MpRematch => RematchKeeps(m.scrim, m.teamType);
    case MpEndscrim =>
    case MpTeams(_) =>
    case _ => ScrimUntouched(m, p, host, manager, a);
  }

  lemma ScrimUntouched(m: MatchV, p: Player, host: Player?, manager: bool, a: Action)
    requires !a.MpScrim? && !a.MpRematch? && !a.MpEndscrim? && !a.MpTeams?
    ensures var m' := Act(m, p, host, manager, a).m;
      m'.scrim == m.scrim && (m'.teamType == m.teamType || !m.scrim.running)
  {
    if HostOnly(a) {
      if host != null {
        HostLeavesRest(m, host, a);
      }
    } else if Command(a) {
      if host != null {
        CommandLeavesScrim(m, p, host, a);
      }
    } else {
      PacketLeavesRest(m, p, host, a);
    }
  }

  lemma CommandLeavesScrim(m: MatchV, p: Player, host: Player, a: Action)
    requires Command(a) && !a.MpScrim? && !a.MpRematch? && !a.MpEndscrim? && !a.MpTeams?
    ensures var m' := ActOnCommand(m, p, host, a).m; m'.scrim == m.scrim && m'.teamType == m.teamType
  {
  }

  /** A point moves the counts with the list of winners, whenever it is awarded. */
  lemma PointKeepsCounts(s: Scrim, t: TeamType, scores: seq<(Side, int)>)
    requires PointsMatch(s)
    ensures PointsMatch(PointAwarded(s, t, scores).0)
  {
    if scores != [] {
      if Tied(scores) {
        TieMoves(s);
      } else {
        GivenPointMoves(s, t, scores[Winner(scores)].0);
      }
    }
  }

  lemma TieMoves(s: Scrim)
    requires PointsMatch(s)
    ensures PointsMatch(s.(winners := s.winners + [None]))
  {
    assert (s.winners + [None])[..|s.winners|] == s.winners;
  }

  lemma GivenPointMoves(s: Scrim, t: TeamType, winner: Side)
    requires PointsMatch(s)
    ensures PointsMatch(PointGiven(s, t, winner).0)
  {
    CountedMatches(s, winner);
    if winner.TeamSide? {
      LookUpKeeps(Counted(s, winner), TeamSide(if winner.team.Blue? then Red else Blue));
    }
  }

  lemma CountedMatches(s: Scrim, winner: Side)
    requires PointsMatch(s)
    ensures PointsMatch(Counted(s, winner))
  {
    var counted := s.winners + [Some(winner)];
    assert counted[..|s.winners|] == s.winners;
    PointsOfAnySide(s, winner);
  }

  lemma LookUpKeeps(s: Scrim, side: Side)
    requires PointsMatch(s)
    ensures PointsMatch(LookUp(s, side))
  {
    PointsOfAnySide(s, side);
  }

  lemma {:induction false} GivenPointKeeps(s: Scrim, t: TeamType, winner: Side)
    requires PointsMatch(s) && NoChampion(s) && WinnersFit(s, t) && s.running && Fits(winner, t)
    ensures var (s', ok) := PointGiven(s, t, winner);
      && ok && NoChampion(s') && WinnersFit(s', t)
      && (s'.running <==> PointsOf(s, winner) + 1 != s.winningPts)
  {
    var counted := s.winners + [Some(winner)];
    assert forall i :: 0 <= i < |counted| && counted[i].Some? ==> Fits(counted[i].value, t);
  }

  /** With the point awarded while the scrim still runs: the ledger is kept, and the scrim ends on
      exactly the point that makes its winner's points enough. */
  lemma {:induction false} PointKeepsLedger(s: Scrim, t: TeamType, scores: seq<(Side, int)>)
    requires PointsMatch(s) && NoChampion(s) && WinnersFit(s, t) && s.running
    requires forall i :: 0 <= i < |scores| ==> Fits(scores[i].0, t)
    ensures var (s', ok) := PointAwarded(s, t, scores);
      && ok && PointsMatch(s') && NoChampion(s') && WinnersFit(s', t)
      && (!s'.running <==> scores != [] && !Tied(scores) && PointsOf(s, scores[Winner(scores)].0) + 1 == s.winningPts)
  {
    PointKeepsCounts(s, t, scores);
    if scores != [] && !Tied(scores) {
      GivenPointKeeps(s, t, scores[Winner(scores)].0);
    }
  }

  /** What keeps the ledger when the scores of a play come in, perhaps after the scrim or the teams they
      were for: nothing to award, a tie or a fitting winner while a scrim runs, or the point that ends it. */
  predicate PointFits(s: Scrim, t: TeamType, scores: seq<(Side, int)>) {
    scores == [] ||
    if Tied(scores) then s.running
    else
      var winner := scores[Winner(scores)].0;
      || (s.running && Fits(winner, t))
      || (Teams(t) == winner.TeamSide? && PointsOf(s, winner) + 1 == s.winningPts)
  }

  /** A point returns exactly when its winner is of the kind the team type calls for, and keeps the ledger
      exactly when it fits. */
  lemma PointKeptExactly(s: Scrim, t: TeamType, scores: seq<(Side, int)>)
    requires PointsMatch(s) && NoChampion(s) && WinnersFit(s, t)
    ensures var (s', ok) := PointAwarded(s, t, scores);
      && (ok <==> scores == [] || Tied(scores) || Teams(t) == scores[Winner(scores)].0.TeamSide?)
      && (PointsMatch(s') && NoChampion(s') && WinnersFit(s', t) <==> PointFits(s, t, scores))
      && (PointFits(s, t, scores) ==> ok)
  {
    PointKeepsCounts(s, t, scores);
    if scores != [] && !Tied(scores) {
      GivenPointExactly(s, t, scores[Winner(scores)].0);
    } else if scores != [] {
      assert (s.winners + [None])[..|s.winners|] == s.winners;
    }
  }

  lemma {:induction false} GivenPointExactly(s: Scrim, t: TeamType, winner: Side)
    requires PointsMatch(s) && NoChampion(s) && WinnersFit(s, t)
    ensures var (s', ok) := PointGiven(s, t, winner);
      && (ok <==> Teams(t) == winner.TeamSide?)
      && (NoChampion(s') && WinnersFit(s', t) <==>
            || (s.running && Fits(winner, t))
            || (Teams(t) == winner.TeamSide? && PointsOf(s, winner) + 1 == s.winningPts))
  {
    PointsOfAnySide(s, winner);
    var counted := s.winners + [Some(winner)];
    assert counted[|s.winners|] == Some(winner);
    assert forall i :: 0 <= i < |s.winners| ==> counted[i] == s.winners[i];
  }

  /** Between scrims, fitting scores keep the ledger exactly when there are none or the winner of one point
      would have won the scrim last set up. */
  lemma LatePointExactly(s: Scrim, t: TeamType, scores: seq<(Side, int)>)
    requires PointsMatch(s) && NoChampion(s) && forall i :: 0 <= i < |scores| ==> Fits(scores[i].0, t)
    ensures PointFits(s, t, scores) <==> s.running || scores == [] || (!Tied(scores) && s.winningPts == 1)
  {
    if scores != [] && !s.running {
      PointsOfAnySide(s, scores[Winner(scores)].0);
    }
  }

  /** Points that were not ties, over the two sides of a team scrim. */
  lemma {:induction false} TwoSidesCount(winners: seq<Option<Side>>)
    requires forall i :: 0 <= i < |winners| && winners[i].Some? ==> winners[i].value in {TeamSide(Red), TeamSide(Blue)}
    ensures NonTies(winners) == Wins(winners, TeamSide(Red)) + Wins(winners, TeamSide(Blue))
  {
    if winners != [] {
      TwoSidesCount(winners[..|winners| - 1]);
    }
  }

  function NonTies(winners: seq<Option<Side>>): nat {
    if winners == [] then 0
    else NonTies(winners[..|winners| - 1]) + if winners[|winners| - 1].Some? then 1 else 0
  }

  /** A two-team scrim of best of `n` is over within `n` points that are not ties: while it runs fewer
      than `n` have been given. */
  lemma TeamScrimIsShort(m: MatchV, n: nat)
    requires LedgerHolds(m) && m.scrim.running && Teams(m.teamType)
    requires n % 2 == 1 && m.scrim.winningPts == n / 2 + 1
    ensures NonTies(m.scrim.winners) < n
  {
    TwoSidesCount(m.scrim.winners);
    PointsOfAnySide(m.scrim, TeamSide(Red));
    PointsOfAnySide(m.scrim, TeamSide(Blue));
  }
}
