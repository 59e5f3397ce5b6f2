/** What each step of the session changes in seats and matches: joining, leaving, making a match, and what
    is done in one. */
module SeatEffects {
  import opened Wrappers
  import opened Multiplayer
  import opened MatchEffects
  import opened Sessions
  import opened ChannelSafety
  import opened SessionEffects
  import SessionRuns

  // ---------------------------------------------------------------- joining a match

  /** The match's host: whoever is online under the host's id. */
  predicate HostIs(w: World, m: Match, host: Player) {
    M(w, m).hostId in w.byId && w.byId[M(w, m).hostId] == host
  }

  ghost predicate FirstOpen(v: MatchV, i: int) {
    0 <= i < |v.slots| && v.slots[i].status.Open? && forall j :: 0 <= j < i ==> !v.slots[j].status.Open?
  }

  /** The slot for a player who may join: the first for its host, and for others, with the password, the
      first open one. */
  ghost predicate SeatIs(w: World, p: Player, m: Match, accepted: bool, i: nat) {
    if HostIs(w, m, p) then i == 0 else accepted && FirstOpen(M(w, m), i)
  }

  /** The match lets the player in. */
  ghost predicate Admits(w: World, p: Player, m: Match, accepted: bool) {
    && P(w, p).currentMatch == null && p.id !in M(w, m).tourneyClients
    && (HostIs(w, m, p) || (accepted && exists i :: FirstOpen(M(w, m), i)))
    && MayJoin(w, p, m.chat)
  }

  /** The lobby that the server lists. */
  ghost predicate IsLobby(w: World, c: Channel) {
    Means(w, Lobby, c)
  }

  /** Beside the chat that `p` is in now, and the lobby that they are not, everyone is where they were. */
  ghost predicate InChatNotLobby(w: World, p: Player, m: Match, w': World) {
    && m.chat in P(w', p).channels
    && (forall c <- P(w, p).channels + P(w', p).channels ::
          c in P(w', p).channels <==> (c in P(w, p).channels || c == m.chat) && !IsLobby(w, c))
    && w'.ch.Keys == w.ch.Keys + {m.chat} && p in C(w', m.chat)
    && (forall c <- w'.ch :: forall q <- C(w, c) + C(w', c) ::
          q in C(w', c) <==> (q in C(w, c) || (c == m.chat && q == p)) && !(IsLobby(w, c) && q == p))
  }

  /** `p` sits in slot `i` of `m`, and is in its chat and out of the lobby; nothing else changes. */
  ghost predicate SitsIn(w: World, p: Player, m: Match, i: nat, w': World) {
    && w' == w.(pl := w.pl[p := P(w', p)], ma := w.ma[m := M(w', m)], ch := w'.ch)
    && P(w', p) == P(w, p).(currentMatch := m, channels := P(w', p).channels)
    && InChatNotLobby(w, p, m, w')
    && TakesSlot(M(w, m), p, i, M(w', m))
  }

  /** Not ready, in team modes on the red side, and with what the slot had. */
  ghost predicate TakesSlot(v: MatchV, p: Player, i: nat, v': MatchV) {
    && v' == v.(slots := v'.slots) && |v'.slots| == |v.slots|
    && forall k :: 0 <= k < |v.slots| ==>
         v'.slots[k] ==
           if k != i then v.slots[k]
           else v.slots[k].(player := p, status := NotReady, team := if IsTeamMode(v.teamType) then Red else v.slots[k].team)
  }

  /** Every status that has a player has one. */
  ghost predicate Writable(v: MatchV) {
    forall k :: 0 <= k < |v.slots| && v.slots[k].player == null ==>
      v.slots[k].status.Open? || v.slots[k].status.Locked? || v.slots[k].status.Quit?
  }

  /** Joining changes the session exactly when the match lets the player in, who is then seated; and it
      raises for want of a host, or because the state it ends with cannot be sent. */
  lemma JoinMatchExactly(w: World, p: Player, m: Match, accepted: bool)
    requires Symmetric(w) && m.chat.name.Multi?
    ensures M(w, m).hostId !in w.byId ==>
      JoinMatch(w, p, m, accepted) == Outcome(w, P(w, p).currentMatch != null || p.id in M(w, m).tourneyClients)
    ensures M(w, m).hostId in w.byId && !HostIs(w, m, p) && !accepted ==>
      JoinMatch(w, p, m, accepted) == Outcome(w, true)
    ensures M(w, m).hostId in w.byId ==>
      var o := JoinMatch(w, p, m, accepted);
      if !Admits(w, p, m, accepted) then o == Outcome(w, true)
      else
        && o.w != w && (o.ok <==> Writable(M(o.w, m)))
        && forall i :: SeatIs(w, p, m, accepted, i) ==> SitsIn(w, p, m, i, o.w)
  {
    FirstOpenIsFree(M(w, m));
    assert GetFree(M(w, m)).Some? ==> FirstOpen(M(w, m), GetFree(M(w, m)).value);
    JoinChannelExactly(w, p, m.chat);
    if M(w, m).hostId in w.byId && Admits(w, p, m, accepted) {
      var slot := if HostIs(w, m, p) then 0 else GetFree(M(w, m)).value;
      assert SeatIs(w, p, m, accepted, slot);
      SeatTakenSits(w, p, m, slot);
      assert JoinMatch(w, p, m, accepted) == SeatTaken(w, p, m, slot);
    }
  }

  lemma FirstOpenIsFree(v: MatchV)
    ensures match GetFree(v)
      case Some(r) => forall i :: FirstOpen(v, i) <==> i == r
      case None => forall i :: !FirstOpen(v, i)
  {
  }

  lemma SeatTakenSits(w: World, p: Player, m: Match, i: nat)
    requires Symmetric(w) && m.chat.name.Multi? && MayJoin(w, p, m.chat)
    requires M(w, m).hostId in w.byId && P(w, p).currentMatch == null
    ensures var o := SeatTaken(w, p, m, i);
      SitsIn(w, p, m, i, o.w) && (o.ok <==> Writable(M(o.w, m))) && o.w != w
  {
    JoinChannelExactly(w, p, m.chat);
    var w1 := JoinChannel(w, p, m.chat).0;
    var w2 := LeaveLobby(w1, p).w;
    LobbyLeft(w, p, m, w1);
    var w' := SatDown(w2, p, m, i).w;
    SatDownSits(w2, p, m, i);
    WritableMeans(M(w', m));
    ChatFollows(w, p, m, w2, w');
    assert w'.pl == w.pl[p := P(w', p)];
    assert w' != w by {
      assert P(w', p).currentMatch != P(w, p).currentMatch;
    }
  }

  lemma ChatFollows(w: World, p: Player, m: Match, w1: World, w2: World)
    requires InChatNotLobby(w, p, m, w1) && w2.ch == w1.ch && P(w2, p).channels == P(w1, p).channels
    ensures InChatNotLobby(w, p, m, w2)
  {
  }

  lemma WritableMeans(v: MatchV)
    ensures Writable(v) <==> PlayersThere(v)
  {
    forall k | 0 <= k < |v.slots|
      ensures HasPlayerBit(v.slots[k].status) <==>
        !(v.slots[k].status.Open? || v.slots[k].status.Locked? || v.slots[k].status.Quit?)
    {
    }
  }

  lemma SatDownSits(w: World, p: Player, m: Match, i: nat)
    ensures var o := SatDown(w, p, m, i);
      && o.w == w.(pl := w.pl[p := P(w, p).(currentMatch := m)], ma := w.ma[m := M(o.w, m)])
      && TakesSlot(M(w, m), p, i, M(o.w, m))
      && (M(w, m).hostId in w.byId ==> (o.ok <==> PlayersThere(M(o.w, m))))
  {
  }

  lemma LobbyLeft(w: World, p: Player, m: Match, w1: World)
    requires Symmetric(w) && m.chat.name.Multi? && MayJoin(w, p, m.chat) && Joined(w, p, m.chat, w1)
    ensures var o := LeaveLobby(w1, p);
      && o.ok && o.w == w.(pl := w.pl[p := P(w, p).(channels := P(o.w, p).channels)], ch := o.w.ch)
      && InChatNotLobby(w, p, m, o.w)
  {
    var found := FindChannel(w.channels, Lobby);
    assert found.Some? && found.value in P(w1, p).channels ==> found.value in P(w, p).channels;
    LobbyIsMeant(w, p);
    if found.Some? && found.value in P(w, p).channels {
      OneLeft(w, p, m, w1, found.value);
    } else {
      NoneLeft(w, p, m, w1);
    }
  }

  lemma LobbyIsMeant(w: World, p: Player)
    ensures var found := FindChannel(w.channels, Lobby);
      if found.Some? && found.value in P(w, p).channels
      then forall c :: IsLobby(w, c) <==> c == found.value
      else forall c <- P(w, p).channels :: !IsLobby(w, c)
  {
    FoundIsMeant(w, Lobby);
  }

  lemma NoneLeft(w: World, p: Player, m: Match, w1: World)
    requires Symmetric(w) && m.chat.name.Multi? && Joined(w, p, m.chat, w1)
    requires forall c <- P(w, p).channels :: !IsLobby(w, c)
    ensures InChatNotLobby(w, p, m, w1)
  {
    assert !IsLobby(w, m.chat);
    forall c, q | c in w1.ch && q in C(w, c) + C(w1, c)
      ensures q in C(w1, c) <==> (q in C(w, c) || (c == m.chat && q == p)) && !(IsLobby(w, c) && q == p)
    {
      if q == p && q in C(w, c) {
        assert c in P(w, p).channels;
      }
    }
  }

  lemma OneLeft(w: World, p: Player, m: Match, w1: World, lobby: Channel)
    requires Symmetric(w) && m.chat.name.Multi? && lobby.name.Lobby? && lobby in P(w, p).channels && p !in C(w, m.chat)
    requires Joined(w, p, m.chat, w1)
    requires forall c :: IsLobby(w, c) <==> c == lobby
    ensures var o := LeaveChannel(w1, p, lobby);
      && o.ok && o.w == w.(pl := w.pl[p := P(w, p).(channels := P(o.w, p).channels)], ch := o.w.ch)
      && InChatNotLobby(w, p, m, o.w)
  {
    LeaveChannelExactly(w1, p, lobby);
    OneGone(w, p, m, w1, lobby, LeaveChannel(w1, p, lobby).w);
  }

  lemma OneGone(w: World, p: Player, m: Match, w1: World, lobby: Channel, w2: World)
    requires Symmetric(w) && m.chat.name.Multi? && lobby.name.Lobby? && lobby in P(w, p).channels && p !in C(w, m.chat)
    requires Joined(w, p, m.chat, w1) && LeftBy(w1, p, lobby, w2)
    requires forall c :: IsLobby(w, c) <==> c == lobby
    ensures InChatNotLobby(w, p, m, w2)
  {
    AppendDistinct(P(w, p).channels, m.chat);
    RemoveOnce(P(w1, p).channels, lobby);
    RemoveOnce(C(w, lobby), p);
    forall c, q | c in w2.ch && q in C(w, c) + C(w2, c)
      ensures q in C(w2, c) <==> (q in C(w, c) || (c == m.chat && q == p)) && !(IsLobby(w, c) && q == p)
    {
    }
  }

  /** The join request: of a listed match, by a player neither restricted nor silenced. */
  lemma JoinStep(w: World, p: Player, index: nat, silenced: bool, accepted: bool)
    ensures Step(w, Join(p, index, silenced, accepted)) ==
      if index < |w.matches| && w.matches[index] != null && 0 in P(w, p).priv && !silenced
      then JoinMatch(w, p, w.matches[index], accepted)
      else Outcome(w, true)
  {
  }

  /** `!mp force` seats another player as if with the password; the sender must be allowed commands. */
  lemma ForceStep(w: World, p: Player, manager: bool, target: Player)
    ensures var m := P(w, p).currentMatch;
      Step(w, MpForce(p, manager, target)) ==
        if m == null then Outcome(w, true)
        else if M(w, m).hostId !in w.byId then Outcome(w, false)
        else if HostIs(w, m, p) || p in M(w, m).referees || manager then JoinMatch(w, target, m, true)
        else Outcome(w, true)
  {
  }

  // ---------------------------------------------------------------- making a match

  /** The lowest free id. */
  predicate LowestFree(matches: seq<Match?>, i: nat) {
    i < |matches| && matches[i] == null && forall j :: 0 <= j < i ==> matches[j] != null
  }

  /** `m` is listed under `i` with its empty chat: sixteen open slots, `p` as host, and the request's settings. */
  ghost predicate Opens(w: World, p: Player, m: Match, d: Creation, i: nat, w': World)
    requires i < |w.matches|
  {
    && w' == w.(matches := w.matches[i := m], channels := w.channels + [m.chat], ma := w.ma[m := M(w', m)],
                ch := w.ch[m.chat := []])
    && M(w', m) == MatchV(M(w', m).slots, p.id, {}, d.mods, d.freemods, d.teamType, false, None, {},
                          Scrim(false, map[], [], 0))
    && |M(w', m).slots| == 16
    && forall k :: 0 <= k < 16 ==> M(w', m).slots[k] == SlotV(null, Open, Neutral, {}, false, false)
  }

  /** The match is opened under the lowest free id, and its maker joins it; without a free id, or by a
      restricted or silenced player, nothing happens. */
  lemma CreateStep(w: World, p: Player, m: Match, silenced: bool, d: Creation)
    ensures var o := Step(w, Create(p, m, silenced, d));
      if 0 in P(w, p).priv && !silenced && exists i :: LowestFree(w.matches, i)
      then exists i, w1 :: LowestFree(w.matches, i) && Opens(w, p, m, d, i, w1) && o == JoinMatch(w1, p, m, true)
      else o == Outcome(w, true)
  {
    var free := FreeId(w.matches);
    if free.Some? {
      assert LowestFree(w.matches, free.value);
      assert Opens(w, p, m, d, free.value, Registered(w, p, m, d));
    }
  }

  // ---------------------------------------------------------------- leaving a match

  /** The slot is empty, and still locked if the player was kicked from it. */
  ghost predicate GivesSlotUp(v: MatchV, i: nat, v': MatchV) {
    && |v'.slots| == |v.slots|
    && forall k :: 0 <= k < |v.slots| ==>
         v'.slots[k] ==
           if k == i then SlotV(null, if v.slots[i].status == Locked then Locked else Open, Neutral, {}, false, false)
           else v.slots[k]
  }

  /** The slot of whoever sits first. */
  ghost predicate Foremost(v: MatchV, k: int) {
    0 <= k < |v.slots| && v.slots[k].player != null && forall j :: 0 <= j < k ==> v.slots[j].player == null
  }

  ghost predicate FirstEntry(matches: seq<Match?>, m: Match, j: int) {
    0 <= j < |matches| && matches[j] == m && forall k :: 0 <= k < j ==> matches[k] != m
  }

  /** Only the first entry for the match is cleared. */
  ghost predicate Cleared(matches: seq<Match?>, m: Match, matches': seq<Match?>) {
    if m in matches
    then exists j :: FirstEntry(matches, m, j) && matches' == matches[j := null]
    else matches' == matches
  }

  /** With nobody left the match is unlisted and its timers stop; else a host who leaves is followed by
      whoever sits first, and a referee's post ends. */
  ghost predicate Settles(w: World, p: Player, m: Match, i: nat, w': World) {
    var v, v' := M(w, m), M(w', m);
    && GivesSlotUp(v, i, v')
    && if forall k :: 0 <= k < |v'.slots| ==> v'.slots[k].player == null
       then v' == v.(slots := v'.slots, starting := None) && Cleared(w.matches, m, w'.matches)
       else
         && v' == v.(slots := v'.slots, hostId := v'.hostId, referees := v.referees - {p}) && w'.matches == w.matches
         && if HostIs(w, m, p) then exists k :: Foremost(v', k) && v'.hostId == v'.slots[k].player.id
            else v'.hostId == v.hostId
  }

  /** Out of the chat, if they were in it. */
  ghost predicate LeavesChat(w: World, p: Player, m: Match, w': World) {
    if p in C(w, m.chat) then
      && w'.ch == w.ch[m.chat := Remove(C(w, m.chat), p)]
      && P(w', p).channels == Remove(P(w, p).channels, m.chat)
      && w'.channels ==
           if Remove(C(w, m.chat), p) == [] && (m.chat.name.Multi? || m.chat.name.Spec?)
           then Remove(w.channels, m.chat) else w.channels
    else w'.ch == w.ch && P(w', p).channels == P(w, p).channels && w'.channels == w.channels
  }

  /** `p` has left slot `i` of `m`, and nobody else has moved. */
  ghost predicate StandsUp(w: World, p: Player, m: Match, i: nat, w': World) {
    && w' == w.(pl := w.pl[p := P(w', p)], ma := w.ma[m := M(w', m)], ch := w'.ch, channels := w'.channels,
                matches := w'.matches)
    && P(w', p) == P(w, p).(currentMatch := null, channels := P(w', p).channels)
    && LeavesChat(w, p, m, w') && Settles(w, p, m, i, w')
  }

  lemma LeaveMatchExactly(w: World, p: Player)
    ensures var m, o := P(w, p).currentMatch, Step(w, Part(p));
      && (m == null ==> o == Outcome(w, true))
      && (m != null && Away(M(w, m), p) ==> o == Outcome(w, false))
      && (m != null && o.ok ==> forall i :: Own(M(w, m), p, i) ==> StandsUp(w, p, m, i, o.w))
  {
    var m := P(w, p).currentMatch;
    if m != null {
      if Away(M(w, m), p) {
        AwayHasNone(M(w, m), p);
      }
      forall i | Own(M(w, m), p, i) && LeaveMatch(w, p).ok
        ensures StandsUp(w, p, m, i, LeaveMatch(w, p).w)
      {
        OwnIsFirst(M(w, m), p, i);
        LeaveSlotExactly(w, p, m, i);
      }
    }
  }

  lemma LeaveSlotExactly(w: World, p: Player, m: Match, i: nat)
    requires i < |M(w, m).slots| && LeaveSlot(w, p, m, i).ok && P(w, p).currentMatch == m
    ensures StandsUp(w, p, m, i, LeaveSlot(w, p, m, i).w)
  {
    var w1 := SetM(w, m, Unseated(M(w, m), i));
    var w2 := LeaveChannel(w1, p, m.chat).w;
    LeaveChannelExactly(w1, p, m.chat);
    SlotGivenUp(w, p, m, i, w1, w2);
    var w3 := Vacated(w2, p, m).w;
    VacatedExactly(w2, p, m);
    StoodUp(w, p, m, i, w2, w3);
  }

  /** The seat given up and the chat left, before anyone looks who remains. */
  ghost predicate OutOfSlot(w: World, p: Player, m: Match, i: nat, w': World) {
    && w' == w.(pl := w.pl[p := P(w', p)], ma := w.ma[m := M(w', m)], ch := w'.ch, channels := w'.channels)
    && P(w', p) == P(w, p).(channels := P(w', p).channels)
    && M(w', m) == M(w, m).(slots := M(w', m).slots)
    && LeavesChat(w, p, m, w') && GivesSlotUp(M(w, m), i, M(w', m))
  }

  lemma SlotGivenUp(w: World, p: Player, m: Match, i: nat, w1: World, w2: World)
    requires i < |M(w, m).slots| && w1 == SetM(w, m, Unseated(M(w, m), i)) && p in w.pl
    requires if p in C(w, m.chat) then LeftBy(w1, p, m.chat, w2) else w2 == w1
    ensures OutOfSlot(w, p, m, i, w2)
  {
    assert w.pl[p := P(w, p)] == w.pl;
  }

  lemma StoodUp(w: World, p: Player, m: Match, i: nat, w2: World, w3: World)
    requires OutOfSlot(w, p, m, i, w2) && Remaining(w2, p, m, w3)
    ensures StandsUp(w, p, m, i, SetP(w3, p, P(w3, p).(currentMatch := null)))
  {
    var w' := SetP(w3, p, P(w3, p).(currentMatch := null));
    assert w'.ma == w.ma[m := M(w', m)];
    assert w'.pl == w.pl[p := P(w', p)];
    assert HostIs(w2, m, p) <==> HostIs(w, m, p);
  }

  /** What those who remain find. */
  ghost predicate Remaining(w: World, p: Player, m: Match, w': World) {
    var v, v' := M(w, m), M(w', m);
    && w' == w.(ma := w.ma[m := v'], matches := w'.matches)
    && if forall k :: 0 <= k < |v.slots| ==> v.slots[k].player == null
       then v' == v.(starting := None) && Cleared(w.matches, m, w'.matches)
       else
         && v' == v.(hostId := v'.hostId, referees := v.referees - {p}) && w'.matches == w.matches
         && if HostIs(w, m, p) then exists k :: Foremost(v', k) && v'.hostId == v'.slots[k].player.id
            else v'.hostId == v.hostId
  }

  lemma VacatedExactly(w: World, p: Player, m: Match)
    requires Vacated(w, p, m).ok
    ensures Remaining(w, p, m, Vacated(w, p, m).w)
  {
    if Empty(M(w, m)) {
      UnlistClears(w.matches, m);
    } else {
      HandOverExactly(w, p, m);
    }
  }

  lemma HandOverExactly(w: World, p: Player, m: Match)
    requires !Empty(M(w, m)) && HandOver(w, p, m).ok
    ensures Remaining(w, p, m, HandOver(w, p, m).w)
  {
    var k := FirstIsForemost(M(w, m));
    var w1 := if HostIs(w, m, p) then SetM(w, m, M(w, m).(hostId := M(w, m).slots[k].player.id)) else w;
    assert HandOver(w, p, m) == PostEnded(w1, p, m);
    PostEndedExactly(w1, p, m);
    var w2 := PostEnded(w1, p, m).w;
    assert w2.ma == w.ma[m := M(w2, m)];
    assert Foremost(M(w2, m), k);
  }

  lemma PostEndedExactly(w: World, p: Player, m: Match)
    requires PostEnded(w, p, m).ok
    ensures PostEnded(w, p, m).w == w.(ma := w.ma[m := M(w, m).(referees := M(w, m).referees - {p})])
  {
  }

  lemma FirstIsForemost(v: MatchV) returns (k: nat)
    requires !Empty(v)
    ensures Foremost(v, k) && FirstOccupant(v) == Some(v.slots[k].player)
  {
    k := FirstFrom(v.slots, (s: SlotV) => s.player != null, 0).value;
  }

  lemma UnlistClears(matches: seq<Match?>, m: Match)
    ensures Cleared(matches, m, Unlist(matches, m))
  {
    var j := SessionRuns.UnlistClearsOne(matches, m);
    assert m in matches ==> FirstEntry(matches, m, j);
  }

  // ---------------------------------------------------------------- in a match

  function HostOf(w: World, m: Match): Player? {
    if M(w, m).hostId in w.byId then w.byId[M(w, m).hostId] else null
  }

  /** The match's state can be written and sent. */
  ghost predicate CanSend(w: World, m: Match) {
    M(w, m).hostId in w.byId && Writable(M(w, m))
  }

  /** An action changes the player's match as its rules say and nothing else. It raises where they do, or
      for a state that cannot be sent. */
  lemma InMatchStep(w: World, p: Player, manager: bool, a: Action)
    ensures var m, o := P(w, p).currentMatch, Step(w, InMatch(p, manager, a));
      if m == null then o == Outcome(w, true)
      else
        var r := Act(M(w, m), p, HostOf(w, m), manager, a);
        o.w == w.(ma := w.ma[m := r.m]) && (o.ok <==> r.ok && (r.sends ==> CanSend(o.w, m)))
  {
    var m := P(w, p).currentMatch;
    if m != null {
      WritableMeans(Act(M(w, m), p, HostOf(w, m), manager, a).m);
    }
  }

  /** The timer starts the play if its setter still sits in the match, and is gone after. */
  lemma TimerStep(w: World, m: Match)
    ensures var o := Step(w, TimerOff(m));
      var v, v' := M(w, m), M(o.w, m);
      && o.w == w.(ma := w.ma[m := v']) && v'.starting == None
      && if exists p, j :: v.starting == Some(p) && Own(v, p, j)
         then PlayStarts(v.(starting := None), v') && (o.ok <==> CanSend(o.w, m))
         else v' == v.(starting := None) && o.ok
  {
    TimerStarts(M(w, m));
    WritableMeans(TimerFired(M(w, m)).m);
  }

  /** A scored play moves its match's scrim, as the point goes, and nothing else. */
  lemma ScoredStep(w: World, m: Match, scores: seq<(Side, int)>)
    ensures var o := Step(w, ScrimPlayScored(m, scores));
      && o.w == w.(ma := w.ma[m := M(w, m).(scrim := M(o.w, m).scrim)])
      && PointGoes(M(w, m).scrim, M(w, m).teamType, scores, M(o.w, m).scrim, o.ok)
  {
    PointAwardedGoes(M(w, m).scrim, M(w, m).teamType, scores);
  }

  // ---------------------------------------------------------------- tournament clients

  ghost predicate SitsById(v: MatchV, id: int) {
    exists k :: 0 <= k < |v.slots| && v.slots[k].player != null && v.slots[k].player.id == id
  }

  /** A tournament client of nobody in a slot joins the chat, and is noted if that succeeds. */
  lemma TourneyJoinStep(w: World, p: Player, index: nat)
    ensures var o := Step(w, TourneyJoin(p, index));
      && o.ok
      && if index < |w.matches| && w.matches[index] != null && !SitsById(M(w, w.matches[index]), p.id)
            && MayJoin(w, p, w.matches[index].chat)
         then
           var m := w.matches[index];
           && o.w == w.(ma := w.ma[m := M(w, m).(tourneyClients := M(w, m).tourneyClients + {p.id})],
                        pl := o.w.pl, ch := o.w.ch)
           && Joined(w, p, m.chat, o.w.(ma := w.ma))
         else o.w == w
  {
    if index < |w.matches| && w.matches[index] != null {
      SeatedByIdSits(M(w, w.matches[index]), p.id);
      JoinChannelExactly(w, p, w.matches[index].chat);
    }
  }

  lemma SeatedByIdSits(v: MatchV, id: int)
    ensures SeatedById(v, id) <==> SitsById(v, id)
  {
    if SitsById(v, id) {
      var k :| 0 <= k < |v.slots| && v.slots[k].player != null && v.slots[k].player.id == id;
      assert v.slots[k] in v.slots;
    }
  }

  lemma TourneyLeaveStep(w: World, p: Player, index: nat)
    ensures var o := Step(w, TourneyLeave(p, index));
      if index < |w.matches| && w.matches[index] != null && p.id in M(w, w.matches[index]).tourneyClients
      then
        var m := w.matches[index];
        o.ok ==>
          && M(o.w, m) == M(w, m).(tourneyClients := M(w, m).tourneyClients - {p.id})
          && o.w == w.(ma := w.ma[m := M(o.w, m)], pl := o.w.pl, ch := o.w.ch, channels := o.w.channels)
          && if p in C(w, m.chat) then LeftBy(w, p, m.chat, o.w.(ma := w.ma)) else o.w.pl == w.pl && o.w.ch == w.ch
      else o == Outcome(w, true)
  {
    if index < |w.matches| && w.matches[index] != null {
      LeaveChannelExactly(w, p, w.matches[index].chat);
    }
  }

  // ---------------------------------------------------------------- logging out

  /** A logout unlists the player, and nobody else; no match, channel or host watched is left to them. */
  lemma LogoutUnlists(w: World, p: Player)
    requires Distinct(w.players)
    ensures var o := Step(w, LogoutStep(p));
      o.ok ==>
        && (forall q: Player :: q in o.w.players <==> q in w.players && q != p)
        && o.w.byId == (if p in w.players then w.byId - {p.id} else w.byId)
        && P(o.w, p).currentMatch == null && P(o.w, p).spectating == null && P(o.w, p).channels == []
  {
    if Logout(w, p).ok {
      LeaveMatchLists(w, p);
      var w1 := LeaveMatch(w, p).w;
      var w2 := StopSpectatingAny(w1, p).w;
      StopLists(w1, p);
      LoopLists(w2, p);
      RemoveOnce(w.players, p);
    }
  }

  lemma LeaveMatchLists(w: World, p: Player)
    requires LeaveMatch(w, p).ok
    ensures SameLists(w, LeaveMatch(w, p).w) && P(LeaveMatch(w, p).w, p).currentMatch == null
  {
    var m := P(w, p).currentMatch;
    if m != null {
      var i := GetSlot(M(w, m), p).value;
      LeaveSlotExactly(w, p, m, i);
      StoodUpLists(w, p, m, i, LeaveMatch(w, p).w);
    }
  }

  lemma StoodUpLists(w: World, p: Player, m: Match, i: nat, w': World)
    requires StandsUp(w, p, m, i, w')
    ensures SameLists(w, w') && P(w', p).currentMatch == null
  {
  }
}
