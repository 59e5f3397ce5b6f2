/** The whole session over every run in which clients keep to the protocol: a match is listed exactly
    while someone sits in it, its host is one of them, and no assertion in the code can fail. */
module SessionSafety {
  import opened Wrappers
  import opened Multiplayer
  import opened MatchSafety
  import opened Sessions
  import opened SeatSafety
  import opened ChannelSafety

  // ---------------------------------------------------------------- the invariant

  /** Listed players are indexed by their distinct ids. */
  predicate Indexed(w: World) {
    && Distinct(w.players)
    && (forall p <- w.players :: p.id in w.byId && w.byId[p.id] == p)
    && (forall id <- w.byId :: w.byId[id] in w.players && w.byId[id].id == id)
  }

  predicate ListedOnce(matches: seq<Match?>) {
    forall i, j :: 0 <= i < j < |matches| && matches[i] != null ==> matches[i] != matches[j]
  }

  /** What holds of each match: open slots are empty, and occupants are online, in its channel, and not
      watching it as tournament clients. */
  predicate WellSeated(w: World, m: Match, v: MatchV) {
    && Tidy(v) && m.chat.name.Multi? && m.chat in w.ch
    && forall q <- Occupants(v) :: q in w.players && q in C(w, m.chat) && q.id !in v.tourneyClients
  }

  /** A match is listed exactly while it has occupants, and then its host and referees are among them. */
  predicate WellListed(w: World, m: Match, v: MatchV) {
    && (m in w.matches <==> Occupants(v) != {})
    && (Occupants(v) != {} ==> HostSeated(v) && RefereesSeated(v))
  }

  /** Every match is in order; `but`, which a step is in the middle of filling or emptying, need not be
      listed as it should. */
  predicate Listing(w: World, but: Match?) {
    && ListedOnce(w.matches) && (forall m <- w.matches :: m != null ==> m in w.ma)
    && (forall m <- w.ma :: WellSeated(w, m, w.ma[m]) && (m != but ==> WellListed(w, m, w.ma[m])))
    && (forall m, n :: m in w.ma && n in w.ma && m.chat == n.chat ==> m == n)
  }

  /** A player's match is one they sit in. */
  predicate Attending(w: World) {
    forall p <- w.pl :: w.pl[p].currentMatch != null ==>
      w.pl[p].currentMatch in w.ma && p in Occupants(w.ma[w.pl[p].currentMatch])
  }

  /** The mods partition and the scrim ledger of every match. */
  predicate PlayedByTheRules(w: World) {
    forall m <- w.ma :: Conforming(w.ma[m]) && LedgerHolds(w.ma[m])
  }

  predicate OrderlyBut(w: World, but: Match?) {
    SeatSafety.Seated(w) && Channelled(w) && Indexed(w) && Listing(w, but) && PlayedByTheRules(w)
  }

  predicate Orderly(w: World) {
    OrderlyBut(w, null) && Attending(w)
  }

  // ---------------------------------------------------------------- facts

  lemma NobodyIsEmpty(v: MatchV)
    ensures Empty(v) <==> Occupants(v) == {}
  {
    if !Empty(v) {
      var i :| 0 <= i < |v.slots| && v.slots[i].player != null;
      assert v.slots[i].player in Occupants(v);
    }
  }

  lemma OccupantHasSlot(v: MatchV, q: Player)
    ensures q in Occupants(v) <==> Inside(v, q)
    ensures q in Occupants(v) <==> GetSlot(v, q).Some?
  {
    InsideIsOccupant(v, q);
    if GetSlot(v, q).Some? {
      assert Occupies(v, GetSlot(v, q).value, q);
    }
  }

  /** A seated host is found by id, and is an occupant. */
  lemma HostFound(w: World, v: MatchV)
    requires Indexed(w) && HostSeated(v) && forall q <- Occupants(v) :: q in w.players
    ensures v.hostId in w.byId && w.byId[v.hostId] in Occupants(v)
  {
    var i :| 0 <= i < |v.slots| && v.slots[i].player != null && v.slots[i].player.id == v.hostId;
    var h: Player := v.slots[i].player;
    assert h in Occupants(v);
  }

  /** The state of a match whose host is seated can be sent to everyone. */
  lemma StateIsSendable(w: World, m: Match)
    requires Indexed(w) && m in w.ma && Sound(w.ma[m]) && HostSeated(w.ma[m])
    requires forall q <- Occupants(w.ma[m]) :: q in w.players
    ensures Sendable(w, m)
  {
    HostFound(w, w.ma[m]);
  }

  // ---------------------------------------------------------------- channel changes

  /** Occupants have stayed in the channels of their matches, and the channels in the table. */
  predicate OccupantsStay(w: World, w': World) {
    forall m <- w.ma :: m.chat in w'.ch && forall q <- Occupants(w.ma[m]) :: q in C(w', m.chat)
  }

  lemma ChannelsKeepOrder(w: World, w': World, but: Match?)
    requires OrderlyBut(w, but) && OnlyChannels(w, w') && Channelled(w') && OccupantsStay(w, w')
    ensures OrderlyBut(w', but)
  {
    OnlyChannelsSeated(w, w');
    ChannelsKeepListing(w, w', but);
  }

  lemma ChannelsKeepListing(w: World, w': World, but: Match?)
    requires Listing(w, but) && OnlyChannels(w, w') && OccupantsStay(w, w')
    ensures Listing(w', but)
  {
    forall m | m in w'.ma
      ensures WellSeated(w', m, w'.ma[m]) && (m != but ==> WellListed(w', m, w'.ma[m]))
    {
      assert WellSeated(w, m, w.ma[m]);
      assert m != but ==> WellListed(w, m, w.ma[m]);
    }
  }

  lemma ChannelsKeepAttending(w: World, w': World)
    requires Attending(w) && OnlyChannels(w, w')
    ensures Attending(w')
  {
    forall p | p in w'.pl && w'.pl[p].currentMatch != null
      ensures w'.pl[p].currentMatch in w'.ma && p in Occupants(w'.ma[w'.pl[p].currentMatch])
    {
      assert P(w, p).currentMatch == w'.pl[p].currentMatch;
      assert p in w.pl;
    }
  }

  lemma ChannelsOnlyOrderly(w: World, w': World)
    requires Orderly(w) && OnlyChannels(w, w') && Channelled(w') && OccupantsStay(w, w')
    ensures Orderly(w')
  {
    ChannelsKeepOrder(w, w', null);
    ChannelsKeepAttending(w, w');
  }

  lemma BesideSpectatorsOccupantsStay(w: World, w': World, but: Match?)
    requires Listing(w, but) && GrowsBesideSpectators(w, w')
    ensures OccupantsStay(w, w')
  {
    forall m | m in w.ma
      ensures m.chat in w'.ch && forall q <- Occupants(w.ma[m]) :: q in C(w', m.chat)
    {
      assert WellSeated(w, m, w.ma[m]);
    }
  }

  /** `c` is not the channel of a match that `p` sits in. */
  predicate NotAtTable(w: World, p: Player, c: Channel) {
    forall m <- w.ma :: m.chat == c ==> p !in Occupants(w.ma[m])
  }

  lemma LeavingOccupantsStay(w: World, w': World, p: Player, c: Channel, but: Match?)
    requires Listing(w, but) && OnlyLeaves(w, w', p, c) && NotAtTable(w, p, c)
    ensures OccupantsStay(w, w')
  {
    forall m | m in w.ma
      ensures m.chat in w'.ch && forall q <- Occupants(w.ma[m]) :: q in C(w', m.chat)
    {
      assert WellSeated(w, m, w.ma[m]);
    }
  }

  lemma JoiningKeepsOrder(w: World, p: Player, c: Channel, but: Match?)
    requires OrderlyBut(w, but) && (c.Instance() ==> c in w.channels)
    ensures var (w', joined) := JoinChannel(w, p, c);
      OrderlyBut(w', but) && (Attending(w) ==> Attending(w')) && OnlyChannels(w, w') && (joined ==> p in C(w', c))
  {
    var w' := JoinChannel(w, p, c).0;
    JoinChannelOnly(w, p, c);
    JoinChannelKeeps(w, p, c);
    BesideSpectatorsOccupantsStay(w, w', but);
    ChannelsKeepOrder(w, w', but);
    if Attending(w) {
      ChannelsKeepAttending(w, w');
    }
  }

  lemma LeavingKeepsOrder(w: World, p: Player, c: Channel, but: Match?)
    requires OrderlyBut(w, but) && MayLeave(w, p, c) && NotAtTable(w, p, c)
    ensures var o := LeaveChannel(w, p, c);
      o.ok && OrderlyBut(o.w, but) && (Attending(w) ==> Attending(o.w)) && OnlyChannels(w, o.w) && OnlyLeaves(w, o.w, p, c)
  {
    var w' := LeaveChannel(w, p, c).w;
    LeaveChannelOnly(w, p, c);
    LeaveChannelKeeps(w, p, c);
    LeavingOccupantsStay(w, w', p, c, but);
    ChannelsKeepOrder(w, w', but);
    if Attending(w) {
      ChannelsKeepAttending(w, w');
    }
  }

  /** Spectating never raises: the removal from the host's list and the assertion on the channel hold. */
  lemma SpectateOrderly(w: World, p: Player, target: int, c: Channel)
    requires Orderly(w) && p in w.players
    requires target in w.byId ==> ChannelFor(StopSpectatingAny(w, p).w, w.byId[target], c)
    ensures var o := StartSpectating(w, p, target, c); o.ok && Orderly(o.w)
  {
    var w' := StartSpectating(w, p, target, c).w;
    StartSpectatingOnly(w, p, target, c);
    StartSpectatingKeeps(w, p, target, c);
    BesideSpectatorsOccupantsStay(w, w', null);
    ChannelsOnlyOrderly(w, w');
  }

  lemma StopSpectatingOrderly(w: World, p: Player)
    requires Orderly(w)
    ensures var o := StopSpectatingAny(w, p);
      o.ok && Orderly(o.w) && P(o.w, p).spectating == null && P(o.w, p).currentMatch == P(w, p).currentMatch
  {
    var host := P(w, p).spectating;
    if host != null {
      var w' := RemoveSpectator(w, host, p).w;
      RemoveSpectatorOnly(w, host, p);
      RemoveSpectatorKeeps(w, host, p);
      BesideSpectatorsOccupantsStay(w, w', null);
      ChannelsOnlyOrderly(w, w');
      assert p in w.pl;
    }
  }

  /** `c` is neither the channel `p` watches from nor that of `p`'s match. */
  predicate FreeToLeave(w: World, p: Player, c: Channel) {
    && MayLeave(w, p, c)
    && (P(w, p).currentMatch != null ==> P(w, p).currentMatch.chat != c)
  }

  lemma FreeIsNotAtTable(w: World, p: Player, c: Channel)
    requires SeatSafety.Seated(w) && FreeToLeave(w, p, c)
    ensures NotAtTable(w, p, c)
  {
  }

  lemma LeavingWatchedChannel(w: World, p: Player, c: Channel)
    requires Symmetric(w) && ListsOccupied(w) && p in C(w, c) && c in w.channels && !MayLeave(w, p, c)
    ensures !Watching(LeaveChannel(w, p, c).w)
  {
    var w' := LeaveChannel(w, p, c).w;
    LeaveReturns(w, p, c);
    LeaveFrame(w, p, c);
    LeaveShape(w, p, c);
    RemoveOnce(C(w, c), p);
    forall d | d in w'.channels && d.name == Spec(P(w, p).spectating.id)
      ensures p !in C(w', d)
    {
      assert d == c;
    }
    assert p in w'.pl && !InSpectatorChannel(w', p, P(w, p).spectating);
  }

  lemma LeavingOwnTable(w: World, p: Player, m: Match)
    requires Symmetric(w) && ListsOccupied(w) && p in C(w, m.chat) && m in w.ma && p in Occupants(w.ma[m])
    ensures !WellSeated(LeaveChannel(w, p, m.chat).w, m, M(LeaveChannel(w, p, m.chat).w, m))
  {
    LeaveReturns(w, p, m.chat);
    LeaveShape(w, p, m.chat);
    RemoveOnce(C(w, m.chat), p);
    LeaveChannelOnly(w, p, m.chat);
  }

  /** Leaving a channel keeps the session in order exactly when it is not one that the player watches from
      or plays in. */
  lemma PartOrderlyExactly(w: World, p: Player, c: Channel)
    requires Orderly(w) && p in C(w, c) && c in w.channels
    ensures var o := LeaveChannel(w, p, c); o.ok && (Orderly(o.w) <==> FreeToLeave(w, p, c))
  {
    if FreeToLeave(w, p, c) {
      FreeIsNotAtTable(w, p, c);
      LeavingKeepsOrder(w, p, c, null);
    } else {
      LeaveReturns(w, p, c);
      PartBreaksOrder(w, p, c);
    }
  }

  lemma PartBreaksOrder(w: World, p: Player, c: Channel)
    requires Orderly(w) && p in C(w, c) && c in w.channels && !FreeToLeave(w, p, c)
    ensures !Orderly(LeaveChannel(w, p, c).w)
  {
    var w' := LeaveChannel(w, p, c).w;
    if MayLeave(w, p, c) {
      var m := P(w, p).currentMatch;
      assert p in w.pl;
      LeavingOwnTable(w, p, m);
      LeaveChannelOnly(w, p, c);
      assert !Listing(w', null);
    } else {
      LeavingWatchedChannel(w, p, c);
    }
  }

  // ---------------------------------------------------------------- one match changes in place

  /** A change that keeps a match sound, its people in place and its rules. */
  predicate KeepsMatch(v: MatchV, v': MatchV) {
    && Sound(v') && Tidy(v') && Occupants(v') == Occupants(v)
    && (HostSeated(v) && RefereesSeated(v) ==> HostSeated(v') && RefereesSeated(v'))
    && (forall q <- Occupants(v) :: q.id !in v.tourneyClients ==> q.id !in v'.tourneyClients)
    && Conforming(v') && LedgerHolds(v')
  }

  lemma KeptMatchOrderly(w: World, m: Match, v: MatchV)
    requires Orderly(w) && m in w.ma && KeepsMatch(w.ma[m], v)
    ensures Orderly(SetM(w, m, v))
  {
    var w' := SetM(w, m, v);
    assert SeatSafety.Seated(w') by {
      MatchChangeSeated(w, m, v);
    }
    assert Channelled(w') by {
      SameChannelsChannelled(w, w');
    }
    KeptMatchListing(w, m, v);
    KeptMatchAttending(w, m, v);
  }

  lemma KeptMatchAttending(w: World, m: Match, v: MatchV)
    requires Attending(w) && PlayedByTheRules(w) && m in w.ma && KeepsMatch(w.ma[m], v)
    ensures Attending(SetM(w, m, v)) && PlayedByTheRules(SetM(w, m, v))
  {
  }

  lemma KeptMatchListing(w: World, m: Match, v: MatchV)
    requires Listing(w, null) && m in w.ma && KeepsMatch(w.ma[m], v)
    ensures Listing(SetM(w, m, v), null)
  {
    var w' := SetM(w, m, v);
    assert WellSeated(w, m, w.ma[m]) && WellListed(w, m, w.ma[m]);
    forall n | n in w'.ma
      ensures WellSeated(w', n, w'.ma[n]) && WellListed(w', n, w'.ma[n])
    {
      assert WellSeated(w, n, w.ma[n]) && WellListed(w, n, w.ma[n]);
    }
  }

  lemma SameChannelsChannelled(w: World, w': World)
    requires Channelled(w) && w'.pl == w.pl && w'.ch == w.ch && w'.channels == w.channels
    ensures Channelled(w')
  {
    LinkedFollows(w, w');
    WatchingFollows(w, w');
    MembershipFollows(w, w');
  }

  lemma ActKeepsClients(v: MatchV, p: Player, host: Player?, manager: bool, a: Action)
    ensures Act(v, p, host, manager, a).m.tourneyClients == v.tourneyClients
  {
    if HostOnly(a) {
      if host != null && a.ChangeSettings? {
        var r := FreemodsChanged(v, host, a.freemods);
        assert r.m.tourneyClients == v.tourneyClients;
      }
    } else if Command(a) {
      if host != null {
        CommandKeepsClients(v, p, host, a);
      }
    } else {
      PacketKeepsClients(v, p, host, a);
    }
  }

  lemma PacketKeepsClients(v: MatchV, p: Player, host: Player?, a: Action)
    requires !HostOnly(a) && !Command(a)
    ensures ActPacket(v, p, host, a).m.tourneyClients == v.tourneyClients
  {
  }

  lemma CommandKeepsClients(v: MatchV, p: Player, host: Player, a: Action)
    requires Command(a)
    ensures ActOnCommand(v, p, host, a).m.tourneyClients == v.tourneyClients
  {
  }

  lemma ActKeepsMatch(v: MatchV, p: Player, host: Player, manager: bool, a: Action)
    requires Sound(v) && Tidy(v) && HostSeated(v) && RefereesSeated(v) && Conforming(v) && LedgerHolds(v)
    requires Inside(v, host) && !Reopens(v, p, host, manager, a)
    ensures KeepsMatch(v, Act(v, p, host, manager, a).m)
  {
    ActSound(v, p, host, manager, a);
    TidyKeptExactly(v, p, host, manager, a);
    ActSeats(v, p, host, manager, a);
    ActConforms(v, p, host, manager, a);
    ActKeepsScrim(v, p, host, manager, a);
    ActKeepsClients(v, p, host, manager, a);
  }

  lemma InOwnMatch(w: World, p: Player)
    requires Orderly(w) && P(w, p).currentMatch != null
    ensures var m := P(w, p).currentMatch;
      && m in w.ma && Inside(w.ma[m], p) && KeptSeats(w, m) && m in w.matches
      && Host(w, m) != null && Inside(w.ma[m], Host(w, m))
  {
    var m := P(w, p).currentMatch;
    assert p in w.pl;
    assert WellSeated(w, m, w.ma[m]) && WellListed(w, m, w.ma[m]);
    HostFound(w, w.ma[m]);
    OccupantHasSlot(w.ma[m], p);
    OccupantHasSlot(w.ma[m], w.byId[w.ma[m].hostId]);
  }

  /** What an action needs of its match. */
  predicate KeptSeats(w: World, m: Match) {
    && m in w.ma && Sound(w.ma[m]) && Tidy(w.ma[m]) && HostSeated(w.ma[m]) && RefereesSeated(w.ma[m])
    && Conforming(w.ma[m]) && LedgerHolds(w.ma[m]) && Occupants(w.ma[m]) != {}
    && forall q <- Occupants(w.ma[m]) :: q in w.players
  }

  /** None of the assertions on slots can fail, and the state that results can be sent. */
  lemma ActInMatchReturns(w: World, p: Player, manager: bool, a: Action)
    requires Indexed(w) && P(w, p).currentMatch != null
    requires var m := P(w, p).currentMatch;
      KeptSeats(w, m) && Inside(w.ma[m], p) && Host(w, m) != null && Inside(w.ma[m], Host(w, m))
    ensures ActInMatch(w, p, manager, a).ok
  {
    var m := P(w, p).currentMatch;
    var v, host := w.ma[m], Host(w, m);
    var r := Act(v, p, host, manager, a);
    ActReturns(v, p, host, manager, a);
    ActSound(v, p, host, manager, a);
    ActSeats(v, p, host, manager, a);
    StateIsSendable(SetM(w, m, r.m), m);
  }

  /** An action of a player in a match never raises, and keeps the session in order exactly when it does
      not reopen a slot under the player in it. */
  lemma ActOrderlyExactly(w: World, p: Player, manager: bool, a: Action)
    requires Orderly(w) && P(w, p).currentMatch != null
    ensures var m := P(w, p).currentMatch;
      var o := ActInMatch(w, p, manager, a);
      && o.ok && (Orderly(o.w) <==> !Reopens(M(w, m), p, Host(w, m), manager, a))
  {
    InOwnMatch(w, p);
    ActInMatchReturns(w, p, manager, a);
    var m := P(w, p).currentMatch;
    var v, host := w.ma[m], Host(w, m);
    var v' := Act(v, p, host, manager, a).m;
    if Reopens(v, p, host, manager, a) {
      TidyKeptExactly(v, p, host, manager, a);
      UntidyBreaksOrder(w, m, v');
    } else {
      ActKeepsMatch(v, p, host, manager, a);
      KeptMatchOrderly(w, m, v');
    }
  }

  lemma UntidyBreaksOrder(w: World, m: Match, v: MatchV)
    requires !Tidy(v)
    ensures !Orderly(SetM(w, m, v))
  {
    var w' := SetM(w, m, v);
    assert m in w'.ma && w'.ma[m] == v;
    assert !WellSeated(w', m, w'.ma[m]);
  }

  // ---------------------------------------------------------------- handlers that wait for a beatmap

  /** `MatchChangeSettings` may wait for a beatmap between the freemods and the teams: each half comes to a
      settings packet that leaves the other alone. */
  lemma SettingsInHalves(v: MatchV, host: Player, freemods: bool, t: TeamType)
    ensures FreemodsChanged(v, host, freemods).ok ==>
      ActSettings(v, host, freemods, false, v.teamType).m == FreemodsChanged(v, host, freemods).m
    ensures ActSettings(v, host, v.freemods, false, t).m == SettingsSettled(v, false, t)
  {
  }

  /** So whatever happens while it waits, either half keeps the session in order. */
  lemma SettingsHalvesOrderly(w: World, m: Match, freemods: bool, t: TeamType)
    requires Orderly(w) && m in w.matches
    ensures Host(w, m) != null
    ensures var r := FreemodsChanged(w.ma[m], Host(w, m), freemods); r.ok && Orderly(SetM(w, m, r.m))
    ensures Orderly(SetM(w, m, SettingsSettled(w.ma[m], false, t)))
  {
    ListedMatch(w, m);
    var v := w.ma[m];
    HostFound(w, v);
    var host: Player := Host(w, m);
    OccupantHasSlot(v, host);
    assert FreemodsChanged(v, host, freemods).ok;
    SettingsInHalves(v, host, freemods, t);
    SettingsKeepMatch(v, host, freemods, v.teamType);
    SettingsKeepMatch(v, host, v.freemods, t);
    KeptMatchOrderly(w, m, FreemodsChanged(v, host, freemods).m);
    KeptMatchOrderly(w, m, SettingsSettled(v, false, t));
  }

  lemma SettingsKeepMatch(v: MatchV, host: Player, freemods: bool, t: TeamType)
    requires Sound(v) && Tidy(v) && HostSeated(v) && RefereesSeated(v) && Conforming(v) && LedgerHolds(v) && Inside(v, host)
    ensures KeepsMatch(v, ActSettings(v, host, freemods, false, t).m)
  {
    ActKeepsMatch(v, host, host, false, ChangeSettings(freemods, false, t));
  }

  /** `mp_pick` looks the map up before it changes anything: then, whoever is still there, the session stays in
      order, and the state can be sent while the match is listed. */
  lemma LatePickOrderly(w: World, m: Match, mods: Mods)
    requires Orderly(w) && m in w.ma
    ensures Orderly(SetM(w, m, MapPicked(w.ma[m], mods)))
    ensures m in w.matches ==> Sendable(SetM(w, m, MapPicked(w.ma[m], mods)), m)
  {
    var v, v' := w.ma[m], MapPicked(w.ma[m], mods);
    PickKeepsMatch(v, mods) by {
      assert WellSeated(w, m, v);
    }
    KeptMatchOrderly(w, m, v');
    if m in w.matches {
      ListedMatch(w, m);
      OrderlySendable(SetM(w, m, v'), m);
    }
  }

  lemma PickKeepsMatch(v: MatchV, mods: Mods)
    requires Sound(v) && Tidy(v) && Conforming(v) && LedgerHolds(v)
    ensures KeepsMatch(v, MapPicked(v, mods))
  {
    var v' := MapPicked(v, mods);
    assert SamePlayers(v, v') && SlotsSound(v') && Tidy(v') && Conforming(v');
    PostsFollow(v, v');
    SamePlayersSameOccupants(v, v');
  }

  lemma TimerKeepsMatch(v: MatchV)
    requires Sound(v) && Tidy(v) && Conforming(v) && LedgerHolds(v)
    ensures KeepsMatch(v, TimerFired(v).m)
  {
    var v' := TimerFired(v).m;
    TimerSound(v);
    TimerChanges(v);
    PostsFollow(v, v');
  }

  lemma TimerChanges(v: MatchV)
    requires Tidy(v) && Conforming(v)
    ensures var v' := TimerFired(v).m;
      && Tidy(v') && Conforming(v') && v'.scrim == v.scrim && v'.teamType == v.teamType
      && v'.tourneyClients == v.tourneyClients && v'.hostId == v.hostId && v'.referees == v.referees
  {
  }

  /** The same people in the same posts. */
  lemma PostsFollow(v: MatchV, v': MatchV)
    requires SamePlayers(v, v') && v'.hostId == v.hostId && v'.referees == v.referees
    ensures Occupants(v') == Occupants(v)
    ensures HostSeated(v) ==> HostSeated(v')
    ensures RefereesSeated(v) ==> RefereesSeated(v')
  {
    SamePlayersSameOccupants(v, v');
    if HostSeated(v) {
      var i :| 0 <= i < |v.slots| && v.slots[i].player != null && v.slots[i].player.id == v.hostId;
      assert v'.slots[i].player == v.slots[i].player;
    }
  }

  lemma TimerOrderly(w: World, m: Match)
    requires Orderly(w) && m in w.ma
    ensures var o := Step(w, TimerOff(m)); o.ok && Orderly(o.w)
  {
    var v, r := w.ma[m], TimerFired(w.ma[m]);
    TimerKeepsMatch(v) by {
      assert WellSeated(w, m, v);
    }
    KeptMatchOrderly(w, m, r.m);
    if r.sends {
      OccupantHasSlot(v, v.starting.value);
      OrderlySendable(SetM(w, m, r.m), m);
    }
  }

  lemma OrderlySendable(w: World, m: Match)
    requires OrderlyBut(w, null) && m in w.ma && Occupants(w.ma[m]) != {}
    ensures Sendable(w, m)
  {
    assert WellSeated(w, m, w.ma[m]) && WellListed(w, m, w.ma[m]);
    StateIsSendable(w, m);
  }

  /** A change of scoring or of tournament clients alone. */
  lemma AsideKeepsMatch(v: MatchV, scrim: Scrim, ids: set<int>)
    requires Sound(v) && Tidy(v) && Conforming(v)
    requires LedgerHolds(v.(scrim := scrim)) && forall q <- Occupants(v) :: q.id !in ids
    ensures KeepsMatch(v, v.(scrim := scrim, tourneyClients := ids))
  {
    PostsFollow(v, v.(scrim := scrim, tourneyClients := ids));
  }

  lemma PointKeepsMatch(v: MatchV, scores: seq<(Side, int)>)
    requires Sound(v) && Tidy(v) && Conforming(v) && LedgerHolds(v) && PointFits(v.scrim, v.teamType, scores)
    requires forall q <- Occupants(v) :: q.id !in v.tourneyClients
    ensures KeepsMatch(v, v.(scrim := PointAwarded(v.scrim, v.teamType, scores).0))
  {
    PointKeptExactly(v.scrim, v.teamType, scores);
    AsideKeepsMatch(v, PointAwarded(v.scrim, v.teamType, scores).0, v.tourneyClients);
  }

  lemma ScoredOrderly(w: World, m: Match, scores: seq<(Side, int)>)
    requires Orderly(w) && m in w.ma && PointFits(w.ma[m].scrim, w.ma[m].teamType, scores)
    ensures Orderly(PlayScored(w, m, scores).w)
  {
    var v := w.ma[m];
    PointKeepsMatch(v, scores) by {
      assert WellSeated(w, m, v);
    }
    KeptMatchOrderly(w, m, v.(scrim := PointAwarded(v.scrim, v.teamType, scores).0));
  }

  /** Scoring a play returns exactly when the winner is of the kind that the team type calls for, and keeps
      the session in order exactly when the point fits. */
  lemma ScoredOrderlyExactly(w: World, m: Match, scores: seq<(Side, int)>)
    requires Orderly(w) && m in w.ma
    ensures var o, v := PlayScored(w, m, scores), w.ma[m];
      && (o.ok <==> scores == [] || Tied(scores) || Teams(v.teamType) == scores[Winner(scores)].0.TeamSide?)
      && (Orderly(o.w) <==> PointFits(v.scrim, v.teamType, scores))
      && (PointFits(v.scrim, v.teamType, scores) ==> o.ok)
  {
    var v := w.ma[m];
    PointKeptExactly(v.scrim, v.teamType, scores);
    if PointFits(v.scrim, v.teamType, scores) {
      ScoredOrderly(w, m, scores);
    } else {
      UnruledBreaksOrder(w, m, v.(scrim := PointAwarded(v.scrim, v.teamType, scores).0));
    }
  }

  lemma UnruledBreaksOrder(w: World, m: Match, v: MatchV)
    requires !LedgerHolds(v) || !Conforming(v)
    ensures !Orderly(SetM(w, m, v))
  {
    var w' := SetM(w, m, v);
    assert m in w'.ma && w'.ma[m] == v;
    assert !PlayedByTheRules(w');
  }

  // ---------------------------------------------------------------- tournament clients

  /** The channel of an occupied match is listed. */
  lemma ChatIsListed(w: World, m: Match)
    requires OrderlyBut(w, null) && m in w.ma && Occupants(w.ma[m]) != {}
    ensures m.chat in w.channels
  {
    assert WellSeated(w, m, w.ma[m]);
    var q :| q in Occupants(w.ma[m]);
    assert q in w.ch[m.chat];
  }

  lemma ClientsOrderly(w: World, m: Match, ids: set<int>)
    requires Orderly(w) && m in w.ma && forall q <- Occupants(w.ma[m]) :: q.id !in ids
    ensures Orderly(SetM(w, m, M(w, m).(tourneyClients := ids)))
  {
    var v := w.ma[m];
    assert WellSeated(w, m, v);
    AsideKeepsMatch(v, v.scrim, ids);
    KeptMatchOrderly(w, m, v.(tourneyClients := ids));
  }

  lemma SeatedByIdMeans(v: MatchV, id: int)
    ensures SeatedById(v, id) <==> exists q <- Occupants(v) :: q.id == id
  {
    if s :| s in v.slots && s.player != null && s.player.id == id {
      assert s.player in Occupants(v);
    }
    if q :| q in Occupants(v) && q.id == id {
      var i :| 0 <= i < |v.slots| && Occupies(v, i, q);
      assert v.slots[i] in v.slots;
    }
  }

  lemma TourneyJoinedOrderly(w: World, p: Player, m: Match?)
    requires Orderly(w) && (m != null ==> m in w.matches)
    ensures var o := TourneyJoined(w, p, m); o.ok && Orderly(o.w)
  {
    if m != null {
      ListedMatch(w, m);
      SeatedByIdMeans(w.ma[m], p.id);
      if !SeatedById(w.ma[m], p.id) {
        ClientJoins(w, p, m);
      }
    }
  }

  lemma ClientJoins(w: World, p: Player, m: Match)
    requires Orderly(w) && m in w.ma && m.chat in w.channels
    requires forall q <- Occupants(w.ma[m]) :: q.id != p.id && q.id !in w.ma[m].tourneyClients
    ensures var (w1, joined) := JoinChannel(w, p, m.chat);
      Orderly(if joined then SetM(w1, m, M(w1, m).(tourneyClients := M(w1, m).tourneyClients + {p.id})) else w1)
  {
    JoiningKeepsOrder(w, p, m.chat, null);
    var (w1, joined) := JoinChannel(w, p, m.chat);
    if joined {
      ClientsOrderly(w1, m, w1.ma[m].tourneyClients + {p.id});
    }
  }

  /** A listed match is occupied, and so is its channel, which is listed too. */
  lemma ListedMatch(w: World, m: Match)
    requires OrderlyBut(w, null) && m in w.matches
    ensures m in w.ma && Occupants(w.ma[m]) != {} && m.chat in w.channels && m.chat.name.Multi?
    ensures Sound(w.ma[m]) && Tidy(w.ma[m]) && HostSeated(w.ma[m]) && RefereesSeated(w.ma[m])
    ensures forall q <- Occupants(w.ma[m]) :: q in w.players && q in C(w, m.chat) && q.id !in w.ma[m].tourneyClients
  {
    assert WellSeated(w, m, w.ma[m]) && WellListed(w, m, w.ma[m]);
    ChatIsListed(w, m);
  }

  lemma TourneyLeftOrderly(w: World, p: Player, m: Match?)
    requires Orderly(w) && (m != null ==> m in w.matches)
    ensures var o := TourneyLeft(w, p, m); o.ok && Orderly(o.w)
  {
    if m != null {
      ListedMatch(w, m);
      if p.id in M(w, m).tourneyClients {
        LeavingKeepsOrder(w, p, m.chat, null);
        var o := LeaveChannel(w, p, m.chat);
        ClientsOrderly(o.w, m, o.w.ma[m].tourneyClients - {p.id});
      }
    }
  }
}
