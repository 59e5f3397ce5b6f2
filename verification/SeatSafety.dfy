/** What every step of the session keeps about seats, with no assumption on what clients send. */
module SeatSafety {
  import opened Wrappers
  import opened Multiplayer
  import opened MatchSafety
  import opened Sessions

  /** Every match is sound, and whoever occupies a slot has that match as their own; so nobody is in
      two slots. */
  predicate Seated(w: World) {
    forall m <- w.ma :: Sound(w.ma[m]) && forall q <- Occupants(w.ma[m]) :: P(w, q).currentMatch == m
  }

  /** Objects that a step creates are new. */
  predicate Fresh(w: World, e: Event) {
    match e
    case Login(p, _) => p !in w.pl
    case Create(_, m, _, _) => m !in w.ma
    case _ => true
  }

  /** Nothing but channel membership and spectator links differs. */
  predicate OnlyChannels(w: World, w': World) {
    && w'.players == w.players && w'.byId == w.byId && w'.matches == w.matches && w'.ma == w.ma
    && w.pl.Keys <= w'.pl.Keys
    && forall p <- w'.pl :: P(w', p).currentMatch == P(w, p).currentMatch && P(w', p).priv == P(w, p).priv
  }

  lemma OnlyChannelsTransitive(a: World, b: World, c: World)
    requires OnlyChannels(a, b) && OnlyChannels(b, c)
    ensures OnlyChannels(a, c)
  {
    forall p | p in c.pl
      ensures P(c, p).currentMatch == P(a, p).currentMatch && P(c, p).priv == P(a, p).priv
    {
      if p !in b.pl {
        assert P(b, p) == NOBODY && P(a, p) == NOBODY;
      }
    }
  }

  lemma JoinChannelOnly(w: World, p: Player, c: Channel)
    ensures OnlyChannels(w, JoinChannel(w, p, c).0)
  {
  }

  lemma LeaveChannelOnly(w: World, p: Player, c: Channel)
    ensures OnlyChannels(w, LeaveChannel(w, p, c).w)
  {
  }

  lemma {:induction false} LeaveChannelsOnly(w: World, p: Player)
    ensures OnlyChannels(w, LeaveChannels(w, p).w)
    decreases |P(w, p).channels|
  {
    if P(w, p).channels != [] {
      var o := LeaveChannel(w, p, P(w, p).channels[0]);
      LeaveChannelOnly(w, p, P(w, p).channels[0]);
      if o.ok && |P(o.w, p).channels| < |P(w, p).channels| {
        LeaveChannelsOnly(o.w, p);
        OnlyChannelsTransitive(w, o.w, LeaveChannels(o.w, p).w);
      }
    }
  }

  lemma AddSpectatorOnly(w: World, host: Player, p: Player, created: Channel)
    ensures OnlyChannels(w, AddSpectator(w, host, p, created))
  {
    var (w1, c) := SpectatorChannel(w, host, created);
    assert OnlyChannels(w, w1) by {
      JoinChannelOnly(SetC(w, c, []), host, c);
    }
    var (w2, joined) := JoinChannel(w1, p, c);
    JoinChannelOnly(w1, p, c);
    OnlyChannelsTransitive(w, w1, w2);
    if joined {
      LinkOnly(w2, host, p);
      OnlyChannelsTransitive(w, w2, LinkSpectator(w2, host, p));
    }
  }

  lemma LinkOnly(w: World, host: Player, p: Player)
    ensures OnlyChannels(w, LinkSpectator(w, host, p))
  {
  }

  lemma RemoveSpectatorOnly(w: World, host: Player, p: Player)
    ensures OnlyChannels(w, RemoveSpectator(w, host, p).w)
  {
    if p in P(w, host).spectators {
      var w2 := UnlinkSpectator(w, host, p);
      assert OnlyChannels(w, w2);
      var found := FindChannel(w2.channels, Spec(host.id));
      if found.Some? {
        var o := LeaveChannel(w2, p, found.value);
        LeaveChannelOnly(w2, p, found.value);
        OnlyChannelsTransitive(w, w2, o.w);
        LeaveChannelOnly(o.w, host, found.value);
        OnlyChannelsTransitive(w, o.w, LeaveChannel(o.w, host, found.value).w);
      }
    }
  }

  lemma StartSpectatingOnly(w: World, p: Player, target: int, created: Channel)
    ensures OnlyChannels(w, StartSpectating(w, p, target, created).w)
  {
    if target in w.byId && P(w, p).spectating != w.byId[target] {
      var current := P(w, p).spectating;
      var o := if current == null then Outcome(w, true) else RemoveSpectator(w, current, p);
      if current != null {
        RemoveSpectatorOnly(w, current, p);
      }
      AddSpectatorOnly(o.w, w.byId[target], p, created);
      OnlyChannelsTransitive(w, o.w, AddSpectator(o.w, w.byId[target], p, created));
    }
  }

  lemma LeaveLobbyOnly(w: World, p: Player)
    ensures OnlyChannels(w, LeaveLobby(w, p).w)
  {
    var found := FindChannel(w.channels, Lobby);
    if found.Some? {
      LeaveChannelOnly(w, p, found.value);
    }
  }

  lemma OnlyChannelsSeated(w: World, w': World)
    requires Seated(w) && OnlyChannels(w, w')
    ensures Seated(w')
  {
    forall m, q | m in w'.ma && q in Occupants(w'.ma[m])
      ensures P(w', q).currentMatch == m
    {
      assert P(w, q).currentMatch == m;
      assert q in w.pl;
    }
  }

  /** One match changes without seating anyone new. */
  lemma MatchChangeSeated(w: World, m: Match, v: MatchV)
    requires Seated(w) && Sound(v) && Occupants(v) <= Occupants(M(w, m))
    ensures Seated(SetM(w, m, v))
  {
    NobodyInNewMatch();
  }

  lemma NobodyInNewMatch()
    ensures Sound(NO_MATCH) && Occupants(NO_MATCH) == {}
    ensures forall hostId, mods, freemods, t :: Sound(NewMatch(hostId, mods, freemods, t)) &&
              Occupants(NewMatch(hostId, mods, freemods, t)) == {}
  {
    forall hostId, mods, freemods, t
      ensures Sound(NewMatch(hostId, mods, freemods, t)) && Occupants(NewMatch(hostId, mods, freemods, t)) == {}
    {
      assert Empty(NewMatch(hostId, mods, freemods, t));
    }
    assert NO_MATCH == NewMatch(0, {}, false, HeadToHead);
  }

  /** A player with no match takes a seat, whoever may have had it. */
  lemma SeatTakenSeated(w: World, m: Match, i: nat, p: Player)
    requires Seated(w) && P(w, p).currentMatch == null
    ensures var w' := SetM(w, m, Multiplayer.Seated(M(w, m), i, p));
      Seated(SetP(w', p, P(w', p).(currentMatch := m)))
  {
    NobodyInNewMatch();
    var v := M(w, m);
    var v' := Multiplayer.Seated(v, i, p);
    assert forall q <- Occupants(v) :: P(w, q).currentMatch == m;
    SeatTakenSound(v, i, p);
    var w' := SetM(w, m, v');
    var w'' := SetP(w', p, P(w', p).(currentMatch := m));
    forall n, q | n in w''.ma && q in Occupants(w''.ma[n])
      ensures P(w'', q).currentMatch == n
    {
      if n != m {
        assert P(w, q).currentMatch == n;
        assert q != p;
      } else if q != p {
        assert q in Occupants(v);
      }
    }
  }

  lemma SeatTakenSound(v: MatchV, i: nat, p: Player)
    requires Sound(v) && p !in Occupants(v)
    ensures var v' := Multiplayer.Seated(v, i, p); Sound(v') && Occupants(v') <= Occupants(v) + {p}
  {
    var v' := Multiplayer.Seated(v, i, p);
    forall q | q in Occupants(v')
      ensures q in Occupants(v) + {p}
    {
      var k :| 0 <= k < |v'.slots| && Occupies(v', k, q);
    }
  }

  lemma JoinMatchSeated(w: World, p: Player, m: Match, accepted: bool)
    requires Seated(w)
    ensures Seated(JoinMatch(w, p, m, accepted).w)
  {
    var host := Host(w, m);
    if P(w, p).currentMatch == null && p.id !in M(w, m).tourneyClients && host != null
       && (p == host || (accepted && GetFree(M(w, m)).Some?)) {
      var slot := if p == host then 0 else GetFree(M(w, m)).value;
      var (w1, joined) := JoinChannel(w, p, m.chat);
      JoinChannelOnly(w, p, m.chat);
      OnlyChannelsSeated(w, w1);
      if joined {
        var o := LeaveLobby(w1, p);
        LeaveLobbyOnly(w1, p);
        OnlyChannelsSeated(w1, o.w);
        OnlyChannelsTransitive(w, w1, o.w);
        assert P(o.w, p).currentMatch == null;
        SeatTakenSeated(o.w, m, slot, p);
      }
    }
  }

  lemma UnseatedSound(v: MatchV, i: nat)
    requires Sound(v) && i < |v.slots| && v.slots[i].player != null
    ensures Sound(Unseated(v, i)) && Occupants(Unseated(v, i)) == Occupants(v) - {v.slots[i].player}
  {
    var v' := Unseated(v, i);
    forall q: Player
      ensures q in Occupants(v') <==> q in Occupants(v) - {v.slots[i].player}
    {
      if q in Occupants(v') {
        var k :| 0 <= k < |v'.slots| && Occupies(v', k, q);
        assert v.slots[k].player == q;
      }
      if q in Occupants(v) && q != v.slots[i].player {
        var k :| 0 <= k < |v.slots| && Occupies(v, k, q);
        assert v'.slots[k].player == q;
      }
    }
  }

  lemma HandOverSeated(w: World, p: Player, m: Match)
    requires Seated(w)
    ensures Seated(HandOver(w, p, m).w)
    ensures var w' := HandOver(w, p, m).w; w'.pl == w.pl && SamePlayers(M(w, m), M(w', m))
  {
    NobodyInNewMatch();
    var w' := HandOver(w, p, m).w;
    HandOverChanges(w, p, m);
    SamePlayersSameOccupants(M(w, m), M(w', m));
    MatchChangeSeated(w, m, M(w', m));
  }

  /** Handing over changes only who is host and who referees. */
  lemma HandOverChanges(w: World, p: Player, m: Match)
    ensures var w' := HandOver(w, p, m).w;
      && (w' == w || w' == SetM(w, m, M(w', m)))
      && M(w', m) == M(w, m).(hostId := M(w', m).hostId, referees := M(w', m).referees)
  {
    CrownedChanges(w, m);
    PostEndedChanges(w, p, m);
    PostEndedChanges(Crowned(w, m), p, m);
  }

  lemma CrownedChanges(w: World, m: Match)
    ensures var w' := Crowned(w, m);
      && (w' == w || w' == SetM(w, m, M(w', m))) && M(w', m) == M(w, m).(hostId := M(w', m).hostId)
  {
  }

  lemma PostEndedChanges(w: World, p: Player, m: Match)
    ensures var w' := PostEnded(w, p, m).w;
      && (w' == w || w' == SetM(w, m, M(w', m))) && M(w', m) == M(w, m).(referees := M(w', m).referees)
  {
  }

  lemma LeaveMatchSeated(w: World, p: Player)
    requires Seated(w)
    ensures Seated(LeaveMatch(w, p).w)
  {
    var m := P(w, p).currentMatch;
    if m != null && GetSlot(M(w, m), p).Some? {
      NobodyInNewMatch();
      var i := GetSlot(M(w, m), p).value;
      UnseatedSound(M(w, m), i);
      var w1 := SetM(w, m, Unseated(M(w, m), i));
      MatchChangeSeated(w, m, Unseated(M(w, m), i));
      var o := LeaveChannel(w1, p, m.chat);
      LeaveChannelOnly(w1, p, m.chat);
      OnlyChannelsSeated(w1, o.w);
      if o.ok {
        AfterSeatGivenUp(o.w, p, m);
      }
    }
  }

  /** With the seat given up and the channel left, closing or handing over and forgetting the match. */
  lemma AfterSeatGivenUp(w: World, p: Player, m: Match)
    requires Seated(w) && P(w, p).currentMatch == m && p !in Occupants(M(w, m))
    ensures var o := Vacated(w, p, m);
      Seated(o.w) && Seated(SetP(o.w, p, P(o.w, p).(currentMatch := null)))
  {
    NobodyInNewMatch();
    var o := Vacated(w, p, m);
    if Empty(M(w, m)) {
      var v := M(w, m).(starting := None);
      assert SamePlayers(M(w, m), v);
      SamePlayersSameOccupants(M(w, m), v);
      MatchChangeSeated(w, m, v);
    } else {
      HandOverSeated(w, p, m);
      SamePlayersSameOccupants(M(w, m), M(o.w, m));
    }
    assert Seated(o.w) && Occupants(M(o.w, m)) == Occupants(M(w, m)) && o.w.pl == w.pl;
    var w' := SetP(o.w, p, P(o.w, p).(currentMatch := null));
    forall n, q | n in w'.ma && q in Occupants(w'.ma[n])
      ensures P(w', q).currentMatch == n
    {
      assert P(o.w, q).currentMatch == n;
      assert M(o.w, n) == w'.ma[n];
    }
  }

  lemma CreateMatchSeated(w: World, p: Player, m: Match, silenced: bool, d: Creation)
    requires Seated(w) && m !in w.ma
    ensures Seated(CreateMatch(w, p, m, silenced, d).w)
  {
    if Creates(w, p, silenced) {
      NobodyInNewMatch();
      var w1 := w.(matches := w.matches[FreeId(w.matches).value := m], channels := w.channels + [m.chat]);
      var w2 := SetM(w1, m, NewMatch(p.id, d.mods, d.freemods, d.teamType));
      MatchChangeSeated(w1, m, NewMatch(p.id, d.mods, d.freemods, d.teamType));
      var w3 := SetC(w2, m.chat, []);
      OnlyChannelsSeated(w2, w3);
      JoinMatchSeated(w3, p, m, true);
    }
  }

  lemma LogoutSeated(w: World, p: Player)
    requires Seated(w)
    ensures Seated(Logout(w, p).w)
  {
    var o := LeaveMatch(w, p);
    LeaveMatchSeated(w, p);
    if o.ok {
      var o2 := StopSpectatingAny(o.w, p);
      if P(o.w, p).spectating != null {
        RemoveSpectatorOnly(o.w, P(o.w, p).spectating, p);
        OnlyChannelsSeated(o.w, o2.w);
      }
      LeaveChannelsOnly(o2.w, p);
      OnlyChannelsSeated(o2.w, LeaveChannels(o2.w, p).w);
    }
  }

  lemma SettleSeated(w: World, m: Match, r: Result)
    requires Seated(w) && Sound(r.m) && Occupants(r.m) <= Occupants(M(w, m))
    ensures Seated(Settle(w, m, r).w)
  {
    MatchChangeSeated(w, m, r.m);
  }

  lemma TourneySeated(w: World, p: Player, m: Match?)
    requires Seated(w)
    ensures Seated(TourneyJoined(w, p, m).w) && Seated(TourneyLeft(w, p, m).w)
  {
    if m != null {
      NobodyInNewMatch();
      JoinChannelOnly(w, p, m.chat);
      LeaveChannelOnly(w, p, m.chat);
      var w1, w2 := JoinChannel(w, p, m.chat).0, LeaveChannel(w, p, m.chat).w;
      OnlyChannelsSeated(w, w1);
      OnlyChannelsSeated(w, w2);
      TourneyClientsSeated(w1, m, M(w1, m).tourneyClients + {p.id});
      TourneyClientsSeated(w2, m, M(w2, m).tourneyClients - {p.id});
    }
  }

  lemma TourneyClientsSeated(w: World, m: Match, ids: set<int>)
    requires Seated(w)
    ensures Seated(SetM(w, m, M(w, m).(tourneyClients := ids)))
  {
    NobodyInNewMatch();
    var v := M(w, m).(tourneyClients := ids);
    assert SamePlayers(M(w, m), v);
    SamePlayersSameOccupants(M(w, m), v);
    MatchChangeSeated(w, m, v);
  }

  lemma PointSeated(w: World, m: Match, scrim: Scrim)
    requires Seated(w)
    ensures Seated(SetM(w, m, M(w, m).(scrim := scrim)))
  {
    NobodyInNewMatch();
    var v := M(w, m).(scrim := scrim);
    assert SamePlayers(M(w, m), v);
    SamePlayersSameOccupants(M(w, m), v);
    MatchChangeSeated(w, m, v);
  }

  /** Every step keeps the seats, even one that raises part-way. */
  lemma StepSeated(w: World, e: Event)
    requires Seated(w) && Fresh(w, e)
    ensures Seated(Step(w, e).w)
  {
    match e
    case Login(p, priv) => LoginSeated(w, p, priv);
    case LogoutStep(p) => LogoutSeated(w, p);
    case SetPrivileges(p, priv) => ProfileSeated(w, p, P(w, p).(priv := priv));
    case SetInLobby(p, inLobby) => ProfileSeated(w, p, P(w, p).(inLobby := inLobby));
    case Create(p, m, silenced, creation) => CreateMatchSeated(w, p, m, silenced, creation);
    case Join(p, index, silenced, accepted) =>
      if Listed(w, index) != null {
        JoinMatchSeated(w, p, Listed(w, index), accepted);
      }
    case Part(p) => LeaveMatchSeated(w, p);
    case TourneyJoin(p, index) => TourneySeated(w, p, Listed(w, index));
    case TourneyLeave(p, index) => TourneySeated(w, p, Listed(w, index));
    case InMatch(p, manager, action) =>
      NobodyInNewMatch();
      var m := P(w, p).currentMatch;
      if m != null {
        ActSound(M(w, m), p, Host(w, m), manager, action);
        SettleSeated(w, m, Act(M(w, m), p, Host(w, m), manager, action));
      }
    case MpForce(p, manager, target) =>
      var m := P(w, p).currentMatch;
      if m != null {
        JoinMatchSeated(w, target, m, true);
      }
    case TimerOff(m) =>
      NobodyInNewMatch();
      TimerSound(M(w, m));
      SamePlayersSameOccupants(M(w, m), TimerFired(M(w, m)).m);
      SettleSeated(w, m, TimerFired(M(w, m)));
    case ScrimPlayScored(m, scores) =>
      PointSeated(w, m, PointAwarded(M(w, m).scrim, M(w, m).teamType, scores).0);
    case _ => ChannelStepOnly(w, e);
      OnlyChannelsSeated(w, Step(w, e).w);
  }

  lemma ChannelStepOnly(w: World, e: Event)
    requires e.ChannelJoin? || e.ChannelPart? || e.Spectate? || e.StopSpectating?
    ensures OnlyChannels(w, Step(w, e).w)
  {
    match e
    case ChannelJoin(p, name) =>
      var found := FindChannel(w.channels, name);
      if found.Some? {
        JoinChannelOnly(w, p, found.value);
      }
    case ChannelPart(p, name) =>
      var found := FindChannel(w.channels, name);
      if found.Some? {
        LeaveChannelOnly(w, p, found.value);
      }
    case Spectate(p, target, created) => StartSpectatingOnly(w, p, target, created);
    case StopSpectating(p) =>
      if P(w, p).spectating != null {
        RemoveSpectatorOnly(w, P(w, p).spectating, p);
      }
  }

  lemma LoginSeated(w: World, p: Player, priv: Privileges)
    requires Seated(w) && p !in w.pl
    ensures Seated(Step(w, Login(p, priv)).w)
  {
    var w' := Step(w, Login(p, priv)).w;
    forall m, q | m in w'.ma && q in Occupants(w'.ma[m])
      ensures P(w', q).currentMatch == m
    {
      assert P(w, q).currentMatch == m;
    }
  }

  lemma ProfileSeated(w: World, p: Player, v: PlayerV)
    requires Seated(w) && v.currentMatch == P(w, p).currentMatch
    ensures Seated(SetP(w, p, v))
  {
    var w' := SetP(w, p, v);
    forall m, q | m in w'.ma && q in Occupants(w'.ma[m])
      ensures P(w', q).currentMatch == m
    {
      assert P(w, q).currentMatch == m;
    }
  }

  // ---------------------------------------------------------------- runs

  predicate FreshRun(w: World, run: seq<Event>)
    decreases |run|
  {
    run == [] || (Fresh(w, run[0]) && FreshRun(Step(w, run[0]).w, run[1..]))
  }

  /** The world after a run of steps, whether or not each returned. */
  function After(w: World, run: seq<Event>): World
    decreases |run|
  {
    if run == [] then w else After(Step(w, run[0]).w, run[1..])
  }

  lemma {:induction false} RunSeated(w: World, run: seq<Event>)
    requires Seated(w) && FreshRun(w, run)
    ensures Seated(After(w, run))
    decreases |run|
  {
    if run != [] {
      StepSeated(w, run[0]);
      RunSeated(Step(w, run[0]).w, run[1..]);
    }
  }

  /** What `Seated` means for a player: one seat at most, in the match that is theirs. */
  lemma OneSeat(w: World, m: Match, i: nat, n: Match, j: nat, p: Player)
    requires Seated(w) && m in w.ma && n in w.ma && Occupies(w.ma[m], i, p) && Occupies(w.ma[n], j, p)
    ensures m == n && i == j && P(w, p).currentMatch == m
  {
    assert p in Occupants(w.ma[m]) && p in Occupants(w.ma[n]);
  }
}
