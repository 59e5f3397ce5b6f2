/** Taking and giving up seats, and the whole session over every run in which clients keep to the
    protocol: no assertion in the code can fail. */
module SessionRuns {
  import opened Wrappers
  import opened Multiplayer
  import opened MatchSafety
  import opened Sessions
  import opened SeatSafety
  import opened ChannelSafety
  import opened SessionSafety

  // ---------------------------------------------------------------- taking a seat

  /** Only `p`'s match differs among players' matches. */
  predicate OnlyTheirMatch(w: World, w': World, p: Player) {
    && w.pl.Keys <= w'.pl.Keys && p in w'.pl
    && forall q <- w'.pl :: q != p ==> w'.pl[q].currentMatch == P(w, q).currentMatch
  }

  lemma SeatTakenOccupants(v: MatchV, i: nat, p: Player)
    requires Sound(v) && p !in Occupants(v) && i < SLOTS && v.slots[i].player == null
    ensures var v' := Multiplayer.Seated(v, i, p); Occupants(v') == Occupants(v) + {p} && Sound(v')
    ensures Tidy(v) ==> Tidy(Multiplayer.Seated(v, i, p))
    ensures Conforming(v) ==> Conforming(Multiplayer.Seated(v, i, p))
  {
    var v' := Multiplayer.Seated(v, i, p);
    SeatTakenSound(v, i, p);
    assert v'.slots[i].player == p;
    forall q | q in Occupants(v)
      ensures q in Occupants(v')
    {
      var k :| 0 <= k < |v.slots| && Occupies(v, k, q);
      assert v'.slots[k].player == q;
    }
  }

  /** Slot `i` is empty, and `p` there leaves a seated host. */
  predicate SeatReady(w: World, p: Player, m: Match, i: nat) {
    && m in w.ma && m in w.matches && p in w.players && P(w, p).currentMatch == null && p.id !in w.ma[m].tourneyClients
    && i < SLOTS && |w.ma[m].slots| == SLOTS && w.ma[m].slots[i].player == null
    && HostSeated(Multiplayer.Seated(w.ma[m], i, p)) && RefereesSeated(w.ma[m])
  }

  /** With the channel joined and the lobby left, the seat makes the session orderly. */
  lemma SeatingOrderly(w: World, p: Player, m: Match, i: nat)
    requires OrderlyBut(w, m) && Attending(w) && SeatReady(w, p, m, i) && p in C(w, m.chat)
    ensures Orderly(Seat(w, p, m, i))
  {
    SeatingKeepsSeats(w, p, m, i);
    SeatingListing(w, p, m, i);
    SeatingRules(w, p, m, i);
  }

  lemma SeatingKeepsSeats(w: World, p: Player, m: Match, i: nat)
    requires SeatSafety.Seated(w) && Channelled(w) && P(w, p).currentMatch == null
    ensures SeatSafety.Seated(Seat(w, p, m, i)) && Channelled(Seat(w, p, m, i))
  {
    SeatTakenSeated(w, m, i, p);
    ProfileChannelled(w, Seat(w, p, m, i));
  }

  lemma SeatingListing(w: World, p: Player, m: Match, i: nat)
    requires SeatSafety.Seated(w) && Listing(w, m) && SeatReady(w, p, m, i) && p in C(w, m.chat)
    ensures Listing(Seat(w, p, m, i), null)
  {
    var w' := Seat(w, p, m, i);
    assert WellSeated(w, m, w.ma[m]);
    SeatTakenOccupants(w.ma[m], i, p);
    forall n | n in w'.ma
      ensures WellSeated(w', n, w'.ma[n]) && WellListed(w', n, w'.ma[n])
    {
      assert WellSeated(w, n, w.ma[n]);
      assert n != m ==> WellListed(w, n, w.ma[n]);
    }
  }

  lemma SeatingRules(w: World, p: Player, m: Match, i: nat)
    requires SeatSafety.Seated(w) && Attending(w) && PlayedByTheRules(w) && SeatReady(w, p, m, i)
    ensures Attending(Seat(w, p, m, i)) && PlayedByTheRules(Seat(w, p, m, i))
  {
    SeatTakenOccupants(w.ma[m], i, p);
    SeatingAttending(w, Seat(w, p, m, i), p, m);
  }

  lemma SeatingAttending(w: World, w': World, p: Player, m: Match)
    requires Attending(w) && OnlyTheirMatch(w, w', p) && P(w', p).currentMatch == m && m in w.ma
    requires w'.ma == w.ma[m := M(w', m)] && Occupants(M(w', m)) == Occupants(w.ma[m]) + {p}
    ensures Attending(w')
  {
    forall q | q in w'.pl && w'.pl[q].currentMatch != null
      ensures w'.pl[q].currentMatch in w'.ma && q in Occupants(w'.ma[w'.pl[q].currentMatch])
    {
      if q != p {
        assert q in w.pl;
      }
    }
  }

  /** Players' channels and links are the same. */
  lemma ProfileChannelled(w: World, w': World)
    requires Channelled(w) && w'.ch == w.ch && w'.channels == w.channels && w.pl.Keys <= w'.pl.Keys
    requires forall q <- w'.pl :: w'.pl[q].channels == P(w, q).channels &&
               w'.pl[q].spectating == P(w, q).spectating && w'.pl[q].spectators == P(w, q).spectators
    ensures Channelled(w')
  {
    LinkedFollows(w, w');
    WatchingFollows(w, w');
    MembershipFollows(w, w');
  }

  lemma LeaveLobbyOrder(w: World, p: Player, m: Match)
    requires OrderlyBut(w, m) && Attending(w) && m in w.ma && p in C(w, m.chat)
    ensures var o := LeaveLobby(w, p);
      o.ok && OrderlyBut(o.w, m) && Attending(o.w) && OnlyChannels(w, o.w) && p in C(o.w, m.chat)
  {
    assert WellSeated(w, m, w.ma[m]);
    var found := FindChannel(w.channels, Lobby);
    if found.Some? && found.value in P(w, p).channels {
      NoTableInLobby(w, found.value, m);
      LeavingKeepsOrder(w, p, found.value, m);
    }
  }

  lemma NoTableInLobby(w: World, c: Channel, but: Match?)
    requires Listing(w, but) && c.name.Lobby?
    ensures forall m <- w.ma :: m.chat != c
  {
    forall m | m in w.ma
      ensures m.chat != c
    {
      assert WellSeated(w, m, w.ma[m]);
    }
  }

  lemma SeatedAfterChannels(w: World, p: Player, m: Match, i: nat)
    requires OrderlyBut(w, m) && Attending(w) && SeatReady(w, p, m, i) && m.chat in w.channels && JoinChannel(w, p, m.chat).1
    ensures var o := LeaveLobby(JoinChannel(w, p, m.chat).0, p);
      var w' := Seat(o.w, p, m, i);
      o.ok && Orderly(w') && Sendable(w', m)
  {
    var w1 := JoinChannel(w, p, m.chat).0;
    JoiningKeepsOrder(w, p, m.chat, m);
    LeaveLobbyOrder(w1, p, m);
    var w2 := LeaveLobby(w1, p).w;
    SeatingOrderly(w2, p, m, i);
    assert P(Seat(w2, p, m, i), p).currentMatch == m;
    OwnMatchSendable(Seat(w2, p, m, i), p);
  }

  lemma OwnMatchSendable(w: World, p: Player)
    requires Orderly(w) && P(w, p).currentMatch != null
    ensures Sendable(w, P(w, p).currentMatch)
  {
    assert p in w.pl;
    OrderlySendable(w, P(w, p).currentMatch);
  }

  /** The rest of joining, when nothing speaks against it. */
  lemma FreeSeatTaken(w: World, p: Player, m: Match)
    requires OrderlyBut(w, m) && Attending(w) && m in w.ma && m in w.matches && m.chat in w.channels
    requires p in w.players && P(w, p).currentMatch == null && p.id !in w.ma[m].tourneyClients
    requires HostSeated(w.ma[m]) && RefereesSeated(w.ma[m])
    requires GetFree(w.ma[m]).Some? && JoinChannel(w, p, m.chat).1
    ensures var o := LeaveLobby(JoinChannel(w, p, m.chat).0, p);
      var w' := Seat(o.w, p, m, GetFree(w.ma[m]).value);
      o.ok && Orderly(w') && Sendable(w', m)
  {
    var i := GetFree(w.ma[m]).value;
    assert WellSeated(w, m, w.ma[m]);
    HostStaysBeside(w.ma[m], i, p);
    SeatedAfterChannels(w, p, m, i);
  }

  /** A match that is listed and occupied is joined, or it is not; nothing raises. */
  lemma JoinOrderly(w: World, p: Player, m: Match, accepted: bool)
    requires Orderly(w) && p in w.players && m in w.matches
    ensures var o := JoinMatch(w, p, m, accepted); o.ok && Orderly(o.w)
  {
    ListedMatch(w, m);
    HostFound(w, w.ma[m]);
    SeatForGuest(w, p, m, accepted);
    if SeatFor(w, p, m, accepted).0.Some? && JoinChannel(w, p, m.chat).1 {
      FreeSeatTaken(w, p, m);
    }
  }

  lemma SeatForGuest(w: World, p: Player, m: Match, accepted: bool)
    requires SeatSafety.Seated(w) && m in w.ma && Host(w, m) != null && Host(w, m) in Occupants(w.ma[m])
    ensures var (slot, ok) := SeatFor(w, p, m, accepted);
      && ok && (slot.Some? ==> slot == GetFree(w.ma[m]) && P(w, p).currentMatch == null && p.id !in w.ma[m].tourneyClients)
  {
    if P(w, p).currentMatch == null {
      NotTheirHost(w, p, m);
    }
  }

  lemma NotTheirHost(w: World, p: Player, m: Match)
    requires SeatSafety.Seated(w) && m in w.ma && P(w, p).currentMatch == null
    requires Host(w, m) != null && Host(w, m) in Occupants(w.ma[m])
    ensures Host(w, m) != p
  {
  }

  lemma HostStaysBeside(v: MatchV, i: nat, p: Player)
    requires |v.slots| == SLOTS && HostSeated(v) && i < SLOTS && v.slots[i].player == null
    ensures HostSeated(Multiplayer.Seated(v, i, p))
  {
    var k :| 0 <= k < |v.slots| && v.slots[k].player != null && v.slots[k].player.id == v.hostId;
    assert Multiplayer.Seated(v, i, p).slots[k].player == v.slots[k].player;
  }

  // ---------------------------------------------------------------- creating

  /** The new match has a channel of its own that every unrestricted player can read. */
  predicate NewChat(w: World, m: Match) {
    m.chat !in w.ch && m.chat !in w.channels && m.chat.name.Multi? && m.chat.readPriv == {UNRESTRICTED}
  }

  predicate Conformed(d: Creation) {
    d.freemods ==> d.mods <= SPEED_CHANGING_MODS
  }

  lemma RegisteredOrder(w: World, p: Player, m: Match, d: Creation)
    requires Orderly(w) && m !in w.ma && NewChat(w, m) && FreeId(w.matches).Some? && Conformed(d)
    ensures var w' := Registered(w, p, m, d); OrderlyBut(w', m) && Attending(w')
  {
    NobodyInNewMatch();
    CreatedConforming(p.id, d.mods, d.freemods, d.teamType);
    RegisteredSeats(w, p, m, d);
    RegisteredListing(w, p, m, d);
    RegisteredRules(w, Registered(w, p, m, d), m);
  }

  lemma RegisteredSeats(w: World, p: Player, m: Match, d: Creation)
    requires SeatSafety.Seated(w) && Channelled(w) && m !in w.ma && NewChat(w, m) && FreeId(w.matches).Some?
    ensures SeatSafety.Seated(Registered(w, p, m, d)) && Channelled(Registered(w, p, m, d))
  {
    NobodyInNewMatch();
    RegisteredChannelled(w, m.chat, Registered(w, p, m, d));
  }

  lemma RegisteredRules(w: World, w': World, m: Match)
    requires PlayedByTheRules(w) && m !in w.ma && w'.ma == w.ma[m := M(w', m)] && w'.pl == w.pl && Attending(w)
    requires Conforming(M(w', m)) && M(w', m).scrim == NO_SCRIM
    ensures PlayedByTheRules(w') && Attending(w')
  {
  }

  lemma RegisteredChannelled(w: World, c: Channel, w': World)
    requires Channelled(w) && c !in w.ch && c !in w.channels && c.name.Multi?
    requires w'.pl == w.pl && w'.channels == w.channels + [c] && w'.ch == w.ch[c := []]
    ensures Channelled(w')
  {
    AppendDistinct(w.channels, c);
    LinkedFollows(w, w');
    WatchingFollows(w, w');
    assert Symmetric(w');
    assert ListsOccupied(w');
  }

  lemma RegisteredListing(w: World, p: Player, m: Match, d: Creation)
    requires Listing(w, null) && m !in w.ma && NewChat(w, m) && FreeId(w.matches).Some?
    ensures Listing(Registered(w, p, m, d), m)
  {
    var w' := Registered(w, p, m, d);
    NobodyInNewMatch();
    forall n | n in w'.ma
      ensures WellSeated(w', n, w'.ma[n]) && (n != m ==> WellListed(w', n, w'.ma[n]))
    {
      if n != m {
        assert WellSeated(w, n, w.ma[n]) && WellListed(w, n, w.ma[n]);
        assert n in w'.matches <==> n in w.matches by {
          StillListed(w.matches, FreeId(w.matches).value, m, n);
        }
      }
    }
    ListedOnceKept(w.matches, FreeId(w.matches).value, m);
  }

  lemma StillListed(matches: seq<Match?>, i: nat, m: Match, n: Match)
    requires i < |matches| && matches[i] == null && n != m
    ensures n in matches[i := m] <==> n in matches
  {
    if n in matches {
      var k :| 0 <= k < |matches| && matches[k] == n;
      assert matches[i := m][k] == n;
    }
  }

  lemma ListedOnceKept(matches: seq<Match?>, i: nat, m: Match)
    requires ListedOnce(matches) && i < |matches| && m !in matches
    ensures ListedOnce(matches[i := m])
  {
  }

  /** Until the creator sits down, the new match is listed with nobody in it. */
  lemma UnattendedBreaksOrder(w: World, p: Player, m: Match, d: Creation)
    requires FreeId(w.matches).Some?
    ensures !Orderly(Registered(w, p, m, d))
  {
    var w' := Registered(w, p, m, d);
    NobodyInNewMatch();
    assert m in w'.ma && w'.matches[FreeId(w.matches).value] == m;
    assert !WellListed(w', m, w'.ma[m]);
  }

  /** Joining changes a match in its slots alone. */
  lemma JoinChangesSlots(w: World, p: Player, m: Match, accepted: bool)
    requires m in w.ma
    ensures var w' := JoinMatch(w, p, m, accepted).w;
      m in w'.ma && M(w', m).freemods == w.ma[m].freemods && M(w', m).mods == w.ma[m].mods
  {
    JoinChannelOnly(w, p, m.chat);
    LeaveLobbyOnly(JoinChannel(w, p, m.chat).0, p);
  }

  /** A match whose mods do not fit its freemods setting is against the rules, whoever sits in it. */
  lemma UnconformedBreaksOrder(w: World, p: Player, m: Match, d: Creation)
    requires FreeId(w.matches).Some? && !Conformed(d)
    ensures !Orderly(JoinMatch(Registered(w, p, m, d), p, m, true).w)
  {
    var w' := Registered(w, p, m, d);
    JoinChangesSlots(w', p, m, true);
    var w'' := JoinMatch(w', p, m, true).w;
    assert !Conforming(w''.ma[m]);
    assert !PlayedByTheRules(w'');
  }

  /** Creating a match keeps the session in order exactly when nothing is created, or the creator has no match
      yet and mods that fit the freemods setting. */
  lemma CreateOrderlyExactly(w: World, p: Player, m: Match, silenced: bool, d: Creation)
    requires Orderly(w) && p in w.players && m !in w.ma && NewChat(w, m)
    ensures var o := CreateMatch(w, p, m, silenced, d);
      && (Conformed(d) ==> o.ok)
      && (Orderly(o.w) <==> !Creates(w, p, silenced) || (P(w, p).currentMatch == null && Conformed(d)))
      && (Orderly(o.w) ==> o.ok)
  {
    if Creates(w, p, silenced) {
      if !Conformed(d) {
        UnconformedBreaksOrder(w, p, m, d);
      } else if P(w, p).currentMatch != null {
        UnattendedBreaksOrder(w, p, m, d);
      } else {
        CreatorSeated(w, p, m, d);
      }
    }
  }

  lemma CreatorSeated(w: World, p: Player, m: Match, d: Creation)
    requires Orderly(w) && p in w.players && P(w, p).currentMatch == null && Creates(w, p, false)
    requires m !in w.ma && NewChat(w, m) && Conformed(d)
    ensures var o := JoinMatch(Registered(w, p, m, d), p, m, true); o.ok && Orderly(o.w)
  {
    var w' := Registered(w, p, m, d);
    RegisteredOrder(w, p, m, d);
    NobodyInNewMatch();
    assert Multiplayer.Seated(w'.ma[m], 0, p).slots[0].player == p;
    assert w'.matches[FreeId(w.matches).value] == m;
    assert UNRESTRICTED in P(w', p).priv * m.chat.readPriv;
    SeatedAfterChannels(w', p, m, 0);
  }

  // ---------------------------------------------------------------- what a reopened slot leads to

  /** A player whose slot was reopened under them loses it to the next one to join there, and then cannot
      leave the match any more: the assertion that they have a slot fails. */
  lemma ReopenedSeatIsLost(w: World, m: Match, q: Player, p: Player, i: nat)
    requires SeatSafety.Seated(w) && m in w.ma && P(w, q).currentMatch == m && p != q && P(w, p).currentMatch == null
    requires i < SLOTS && w.ma[m].slots[i].status.Open? && w.ma[m].slots[i].player == q
    ensures var w' := SatDown(w, p, m, i).w; P(w', q).currentMatch == m && !LeaveMatch(w', q).ok
  {
    var w' := SatDown(w, p, m, i).w;
    var v, v' := w.ma[m], w'.ma[m];
    assert v'.slots == v.slots[i := v'.slots[i]] && v'.slots[i].player == p;
    forall k | 0 <= k < |v'.slots|
      ensures !Occupies(v', k, q)
    {
      assert v.slots[i].player == q && k != i ==> v.slots[k].player != q;
    }
    OccupantHasSlot(v', q);
  }

  // ---------------------------------------------------------------- giving up a seat

  /** The seat is empty and the channel left; the match may now be listed with nobody in it. */
  lemma SeatGivenUp(w: World, p: Player, m: Match, i: nat)
    requires OrderlyBut(w, null) && m in w.ma && i < SLOTS && w.ma[m].slots[i].player == p
    ensures var w1 := SetM(w, m, Unseated(w.ma[m], i)); OrderlyBut(w1, m) && NotAtTable(w1, p, m.chat)
  {
    var v := Unseated(w.ma[m], i);
    UnseatedSound(w.ma[m], i);
    UnseatedConforms(w.ma[m], i);
    SeatGivenUpSeats(w, m, v);
    SeatGivenUpListing(w, m, v);
  }

  lemma SeatGivenUpSeats(w: World, m: Match, v: MatchV)
    requires SeatSafety.Seated(w) && Channelled(w) && PlayedByTheRules(w)
    requires m in w.ma && Sound(v) && Occupants(v) <= Occupants(w.ma[m]) && Conforming(v) && LedgerHolds(v)
    ensures SeatSafety.Seated(SetM(w, m, v)) && Channelled(SetM(w, m, v)) && PlayedByTheRules(SetM(w, m, v))
  {
    MatchChangeSeated(w, m, v);
    SameChannelsChannelled(w, SetM(w, m, v));
  }

  lemma UnseatedConforms(v: MatchV, i: nat)
    requires Conforming(v) && i < |v.slots|
    ensures Conforming(Unseated(v, i))
  {
  }

  lemma SeatGivenUpListing(w: World, m: Match, v: MatchV)
    requires Listing(w, null) && m in w.ma && Tidy(v) && Occupants(v) <= Occupants(w.ma[m])
    requires v.tourneyClients == w.ma[m].tourneyClients
    ensures Listing(SetM(w, m, v), m)
  {
    var w1 := SetM(w, m, v);
    forall n | n in w1.ma
      ensures WellSeated(w1, n, w1.ma[n]) && (n != m ==> WellListed(w1, n, w1.ma[n]))
    {
      assert WellSeated(w, n, w.ma[n]) && WellListed(w, n, w.ma[n]);
    }
  }

  /** Only match `m` and the list of matches differ. */
  predicate OnlyTheMatch(w: World, w': World, m: Match) {
    && w'.pl == w.pl && w'.ch == w.ch && w'.channels == w.channels && w'.players == w.players && w'.byId == w.byId
    && w'.ma == w.ma[m := M(w', m)]
  }

  /** A match whose posts are settled is in order again. */
  lemma PostsSettled(w: World, w': World, m: Match)
    requires OrderlyBut(w, m) && m in w.ma && OnlyTheMatch(w, w', m) && KeepsMatch(w.ma[m], M(w', m))
    requires ListedOnce(w'.matches) && WellListed(w', m, M(w', m))
    requires forall n: Match :: n != m ==> (n in w'.matches <==> n in w.matches)
    ensures OrderlyBut(w', null)
  {
    SettledSeats(w, w', m);
    SettledListing(w, w', m);
    SettledRules(w, w', m);
  }

  lemma SettledSeats(w: World, w': World, m: Match)
    requires SeatSafety.Seated(w) && Channelled(w) && OnlyTheMatch(w, w', m)
    requires m in w.ma && KeepsMatch(w.ma[m], M(w', m))
    ensures SeatSafety.Seated(w') && Channelled(w')
  {
    SameChannelsChannelled(w, w');
    MatchChangeSeated(w, m, M(w', m));
  }

  lemma SettledRules(w: World, w': World, m: Match)
    requires PlayedByTheRules(w) && OnlyTheMatch(w, w', m) && m in w.ma && KeepsMatch(w.ma[m], M(w', m))
    ensures PlayedByTheRules(w')
  {
  }

  lemma SettledListing(w: World, w': World, m: Match)
    requires Listing(w, m) && m in w.ma && OnlyTheMatch(w, w', m) && KeepsMatch(w.ma[m], M(w', m))
    requires ListedOnce(w'.matches) && WellListed(w', m, M(w', m))
    requires forall n: Match :: n != m ==> (n in w'.matches <==> n in w.matches)
    ensures Listing(w', null)
  {
    forall n | n in w'.ma
      ensures WellSeated(w', n, w'.ma[n]) && WellListed(w', n, w'.ma[n])
    {
      assert WellSeated(w, n, w.ma[n]);
      assert n != m ==> WellListed(w, n, w.ma[n]);
    }
  }

  lemma {:induction false} UnlistClearsOne(matches: seq<Match?>, m: Match) returns (i: nat)
    ensures m !in matches ==> Unlist(matches, m) == matches
    ensures m in matches ==> i < |matches| && matches[i] == m && Unlist(matches, m) == matches[i := null]
    ensures m in matches ==> forall j :: 0 <= j < i ==> matches[j] != m
  {
    i := 0;
    if matches != [] && matches[0] != m {
      var k := UnlistClearsOne(matches[1..], m);
      i := k + 1;
      assert matches == [matches[0]] + matches[1..];
      if m in matches {
        assert matches[i := null] == [matches[0]] + matches[1..][k := null];
      }
    }
  }

  lemma UnlistIsGone(matches: seq<Match?>, m: Match)
    requires ListedOnce(matches)
    ensures var r := Unlist(matches, m);
      ListedOnce(r) && m !in r && forall n: Match :: n != m ==> (n in r <==> n in matches)
  {
    var i := UnlistClearsOne(matches, m);
    forall n: Match | n != m && n in matches
      ensures n in Unlist(matches, m)
    {
      var k :| 0 <= k < |matches| && matches[k] == n;
      assert Unlist(matches, m)[k] == n;
    }
  }

  lemma CloseMatchOrder(w: World, m: Match)
    requires OrderlyBut(w, m) && m in w.ma && Empty(w.ma[m])
    ensures OrderlyBut(CloseMatch(w, m), null)
  {
    var v := w.ma[m];
    var w' := CloseMatch(w, m);
    NobodyIsEmpty(v);
    UnlistIsGone(w.matches, m);
    StartingKeepsMatch(v);
    PostsSettled(w, w', m);
  }

  lemma StartingKeepsMatch(v: MatchV)
    requires Sound(v) && Tidy(v) && Conforming(v) && LedgerHolds(v)
    ensures KeepsMatch(v, v.(starting := None))
  {
    PostsFollow(v, v.(starting := None));
  }

  /** The post of host is given up by `p` to the first occupant, and that of referee. */
  lemma PostsGivenUp(v: MatchV, p: Player, hostId: int)
    requires Sound(v) && Tidy(v) && Conforming(v) && LedgerHolds(v)
    requires v.referees <= Occupants(v) + {p} && p !in Occupants(v)
    requires exists q <- Occupants(v) :: q.id == hostId
    ensures var v' := v.(hostId := hostId, referees := v.referees - {p});
      KeepsMatch(v, v') && HostSeated(v') && RefereesSeated(v')
  {
    var v' := v.(hostId := hostId, referees := v.referees - {p});
    assert SamePlayers(v, v');
    SamePlayersSameOccupants(v, v');
    var q :| q in Occupants(v) && q.id == hostId;
    var i :| 0 <= i < |v.slots| && Occupies(v, i, q);
    assert v'.slots[i].player == q;
  }

  /** What the players left behind have: their posts, but for what `p` had. */
  predicate LeftBehind(w: World, p: Player, m: Match) {
    && m in w.ma && m in w.matches && p !in Occupants(w.ma[m]) && w.ma[m].referees <= Occupants(w.ma[m]) + {p}
    && Host(w, m) != null && Host(w, m) in Occupants(w.ma[m]) + {p}
  }

  function NewHostId(w: World, p: Player, m: Match): int {
    if Host(w, m) == p && FirstOccupant(M(w, m)).Some? then FirstOccupant(M(w, m)).value.id else M(w, m).hostId
  }

  lemma SuccessorFound(w: World, p: Player, m: Match)
    requires Indexed(w) && LeftBehind(w, p, m) && !Empty(w.ma[m])
    requires forall q <- Occupants(w.ma[m]) :: q in w.players
    ensures exists q <- Occupants(w.ma[m]) :: q.id == NewHostId(w, p, m)
    ensures NewHostId(w, p, m) in w.byId
  {
    var first := FirstOccupant(w.ma[m]).value;
    InsideIsOccupant(w.ma[m], first);
    assert (if Host(w, m) == p then first else Host(w, m)) in Occupants(w.ma[m]);
  }

  function HandedOver(w: World, p: Player, m: Match): World {
    SetM(w, m, M(w, m).(hostId := NewHostId(w, p, m), referees := M(w, m).referees - {p}))
  }

  lemma HandOverIs(w: World, p: Player, m: Match)
    requires Host(w, m) != null && m in w.ma && NewHostId(w, p, m) in w.byId
    ensures HandOver(w, p, m) == Outcome(HandedOver(w, p, m), Sendable(HandedOver(w, p, m), m))
  {
    assert w.(ma := w.ma[m := w.ma[m]]) == w;
  }

  /** A successor is always found. */
  lemma HandOverOrder(w: World, p: Player, m: Match)
    requires OrderlyBut(w, m) && LeftBehind(w, p, m) && !Empty(w.ma[m])
    ensures var o := HandOver(w, p, m);
      o.ok && OrderlyBut(o.w, null) && OnlyTheMatch(w, o.w, m) && Occupants(M(o.w, m)) == Occupants(w.ma[m])
  {
    assert WellSeated(w, m, w.ma[m]);
    NobodyIsEmpty(w.ma[m]);
    SuccessorFound(w, p, m);
    HandOverIs(w, p, m);
    PostsGivenUp(w.ma[m], p, NewHostId(w, p, m));
    PostsSettled(w, HandedOver(w, p, m), m);
    OrderlySendable(HandedOver(w, p, m), m);
  }

  /** Leaving never raises, whoever is left behind. */
  lemma LeaveMatchOrderly(w: World, p: Player)
    requires Orderly(w)
    ensures var o := LeaveMatch(w, p); o.ok && Orderly(o.w) && P(o.w, p).currentMatch == null
  {
    var m := P(w, p).currentMatch;
    if m != null {
      InOwnMatch(w, p);
      OccupantHasSlot(w.ma[m], p);
      var i := GetSlot(w.ma[m], p).value;
      LeaveSeat(w, p, m, i);
      FinishLeaving(w, LeaveChannel(SetM(w, m, Unseated(w.ma[m], i)), p, m.chat).w, p, m);
    }
  }

  lemma FinishLeaving(w: World, w1: World, p: Player, m: Match)
    requires Attending(w) && OrderlyBut(w1, m) && LeftBehind(w1, p, m) && SeatLost(w, w1, p, m)
    ensures var o := Vacated(w1, p, m); o.ok && Orderly(SetP(o.w, p, P(o.w, p).(currentMatch := null)))
  {
    SettleAfterLeaving(w1, p, m);
    SeatStaysLost(w, w1, Vacated(w1, p, m).w, p, m);
    ForgetMatch(w, Vacated(w1, p, m).w, p, m);
  }

  /** `p` has given up the seat in `m`, but not forgotten it. */
  predicate SeatLost(w: World, w': World, p: Player, m: Match) {
    && P(w, p).currentMatch == m && OnlyTheirMatch(w, w', p) && P(w', p).currentMatch == m
    && m in w.ma && w'.ma == w.ma[m := M(w', m)] && Occupants(M(w', m)) == Occupants(w.ma[m]) - {p}
  }

  lemma LeaveSeat(w: World, p: Player, m: Match, i: nat)
    requires Orderly(w) && P(w, p).currentMatch == m && m in w.ma && i < SLOTS && w.ma[m].slots[i].player == p
    requires KeptSeats(w, m) && m in w.matches && Host(w, m) != null && Inside(w.ma[m], Host(w, m))
    ensures var o := LeaveChannel(SetM(w, m, Unseated(w.ma[m], i)), p, m.chat);
      o.ok && OrderlyBut(o.w, m) && LeftBehind(o.w, p, m) && SeatLost(w, o.w, p, m)
  {
    var w1 := SetM(w, m, Unseated(w.ma[m], i));
    SeatGivenUp(w, p, m, i);
    assert MayLeave(w1, p, m.chat) by {
      assert WellSeated(w, m, w.ma[m]);
    }
    LeavingKeepsOrder(w1, p, m.chat, m);
    var w2 := LeaveChannel(w1, p, m.chat).w;
    LeaveKeys(w1, p, m.chat);
    assert OnlyTheirMatch(w, w2, p);
    UnseatedSound(w.ma[m], i);
    InsideIsOccupant(w.ma[m], Host(w, m));
  }

  lemma SettleAfterLeaving(w: World, p: Player, m: Match)
    requires OrderlyBut(w, m) && LeftBehind(w, p, m)
    ensures var o := Vacated(w, p, m);
      o.ok && OrderlyBut(o.w, null) && OnlyTheMatch(w, o.w, m) && Occupants(M(o.w, m)) == Occupants(w.ma[m])
  {
    if Empty(w.ma[m]) {
      CloseMatchOrder(w, m);
      SamePlayersSameOccupants(w.ma[m], w.ma[m].(starting := None));
    } else {
      HandOverOrder(w, p, m);
    }
  }

  /** With the seat gone, forgetting the match completes the leaving. */
  lemma ForgetMatch(w: World, w1: World, p: Player, m: Match)
    requires OrderlyBut(w1, null) && Attending(w) && SeatLost(w, w1, p, m)
    ensures Orderly(SetP(w1, p, P(w1, p).(currentMatch := null)))
  {
    ForgetOrder(w1, p, m);
    ForgetAttending(w, w1, p, m);
  }

  lemma ForgetOrder(w: World, p: Player, m: Match)
    requires OrderlyBut(w, null) && P(w, p).currentMatch == m && p !in Occupants(M(w, m))
    ensures OrderlyBut(SetP(w, p, P(w, p).(currentMatch := null)), null)
  {
    var w' := SetP(w, p, P(w, p).(currentMatch := null));
    ForgetSeated(w, p, m);
    ProfileChannelled(w, w');
    MorePlayersListing(w, w');
  }

  lemma SeatStaysLost(w: World, w1: World, w2: World, p: Player, m: Match)
    requires SeatLost(w, w1, p, m) && OnlyTheMatch(w1, w2, m) && Occupants(M(w2, m)) == Occupants(M(w1, m))
    ensures SeatLost(w, w2, p, m)
  {
  }

  lemma ForgetSeated(w: World, p: Player, m: Match)
    requires SeatSafety.Seated(w) && P(w, p).currentMatch == m && p !in Occupants(M(w, m))
    ensures SeatSafety.Seated(SetP(w, p, P(w, p).(currentMatch := null)))
  {
    var w' := SetP(w, p, P(w, p).(currentMatch := null));
    forall n, q | n in w'.ma && q in Occupants(w'.ma[n])
      ensures P(w', q).currentMatch == n
    {
      assert P(w, q).currentMatch == n;
    }
  }

  lemma ForgetAttending(w: World, w1: World, p: Player, m: Match)
    requires Attending(w) && SeatLost(w, w1, p, m)
    ensures Attending(SetP(w1, p, P(w1, p).(currentMatch := null)))
  {
    var w' := SetP(w1, p, P(w1, p).(currentMatch := null));
    forall q | q in w'.pl && w'.pl[q].currentMatch != null
      ensures w'.pl[q].currentMatch in w'.ma && q in Occupants(w'.ma[w'.pl[q].currentMatch])
    {
      assert q != p && q in w.pl;
    }
  }

  // ---------------------------------------------------------------- coming and going

  lemma LoginOrderly(w: World, p: Player, priv: Privileges)
    requires Orderly(w) && p !in w.pl && p.id !in w.byId
    ensures Orderly(LoggedIn(w, p, priv))
  {
    var w' := LoggedIn(w, p, priv);
    LoginSeated(w, p, priv);
    ProfileChannelled(w, w');
    LoginIndexed(w, p, priv);
    MorePlayersListing(w, w');
  }

  lemma LoginIndexed(w: World, p: Player, priv: Privileges)
    requires Indexed(w) && p.id !in w.byId
    ensures Indexed(LoggedIn(w, p, priv)) && forall q <- w.players :: q in LoggedIn(w, p, priv).players
  {
    AppendDistinct(w.players, p);
  }

  lemma {:induction false} TwiceIsNotDistinct<T>(s: seq<T>, x: T)
    requires x in s
    ensures !Distinct(s + [x])
  {
    assert (s + [x])[1..] == s[1..] + [x];
    if s[0] == x {
      assert x in s[1..] + [x];
    } else {
      TwiceIsNotDistinct(s[1..], x);
    }
  }

  /** A second session of a user takes the first one's place in the index: the session stays in order exactly
      when the user has none. */
  lemma LoginOrderlyExactly(w: World, p: Player, priv: Privileges)
    requires Orderly(w) && p !in w.pl
    ensures Orderly(LoggedIn(w, p, priv)) <==> p.id !in w.byId
  {
    if p.id !in w.byId {
      LoginOrderly(w, p, priv);
    } else {
      var w', q := LoggedIn(w, p, priv), w.byId[p.id];
      if q == p {
        TwiceIsNotDistinct(w.players, p);
      } else {
        assert q in w'.players && w'.byId[q.id] == p;
      }
      assert !Indexed(w');
    }
  }

  lemma MorePlayersListing(w: World, w': World)
    requires Listing(w, null) && w'.ma == w.ma && w'.ch == w.ch && w'.matches == w.matches
    requires forall q <- w.players :: q in w'.players
    ensures Listing(w', null)
  {
    forall n | n in w'.ma
      ensures WellSeated(w', n, w'.ma[n]) && WellListed(w', n, w'.ma[n])
    {
      assert WellSeated(w, n, w.ma[n]) && WellListed(w, n, w.ma[n]);
    }
  }

  lemma ProfileOrderly(w: World, p: Player, v: PlayerV)
    requires Orderly(w)
    requires v == P(w, p).(priv := v.priv, inLobby := v.inLobby)
    ensures Orderly(SetP(w, p, v))
  {
    var w' := SetP(w, p, v);
    assert SeatSafety.Seated(w') by {
      ProfileSeated(w, p, v);
    }
    assert Channelled(w') by {
      ProfileChannelled(w, w');
    }
    MorePlayersListing(w, w');
    forall q | q in w'.pl && w'.pl[q].currentMatch != null
      ensures w'.pl[q].currentMatch in w'.ma && q in Occupants(w'.ma[w'.pl[q].currentMatch])
    {
      assert P(w, q).currentMatch == w'.pl[q].currentMatch && q in w.pl;
    }
  }

  /** Whoever has no match is at nobody's table. */
  lemma NoMatchNoTable(w: World, p: Player)
    requires SeatSafety.Seated(w) && P(w, p).currentMatch == null
    ensures forall m <- w.ma :: p !in Occupants(w.ma[m])
  {
  }

  lemma LogoutLoopOrderly(w: World, p: Player)
    requires Orderly(w) && P(w, p).currentMatch == null && P(w, p).spectating == null
    ensures var o := LeaveChannels(w, p);
      && o.ok && Orderly(o.w) && OnlyChannels(w, o.w) && P(o.w, p).channels == []
      && P(o.w, p).spectating == null && P(o.w, p).currentMatch == null
  {
    var w' := LeaveChannels(w, p).w;
    LeaveChannelsOnly(w, p);
    LeaveChannelsKeeps(w, p);
    LoopKeys(w, p);
    NoMatchNoTable(w, p);
    forall m | m in w.ma
      ensures m.chat in w'.ch && forall q <- Occupants(w.ma[m]) :: q in C(w', m.chat)
    {
      assert WellSeated(w, m, w.ma[m]);
    }
    ChannelsOnlyOrderly(w, w');
  }

  lemma {:induction false} LoopKeys(w: World, p: Player)
    ensures LeaveChannels(w, p).w.ch.Keys == w.ch.Keys
    ensures p in w.pl ==> p in LeaveChannels(w, p).w.pl
    decreases |P(w, p).channels|
  {
    if P(w, p).channels != [] {
      var o := LeaveChannel(w, p, P(w, p).channels[0]);
      LeaveKeys(w, p, P(w, p).channels[0]);
      if o.ok && |P(o.w, p).channels| < |P(w, p).channels| {
        LoopKeys(o.w, p);
      }
    }
  }

  lemma RemovedPlayerOrderly(w: World, p: Player)
    requires Orderly(w) && P(w, p).currentMatch == null
    ensures Orderly(RemovePlayer(w, p))
  {
    var w' := RemovePlayer(w, p);
    RemoveOnce(w.players, p);
    NoMatchNoTable(w, p);
    SameChannelsChannelled(w, w');
    forall n | n in w'.ma
      ensures WellSeated(w', n, w'.ma[n]) && WellListed(w', n, w'.ma[n])
    {
      assert WellSeated(w, n, w.ma[n]) && WellListed(w, n, w.ma[n]);
    }
    RemovedIndexed(w, p);
  }

  lemma RemovedIndexed(w: World, p: Player)
    requires Indexed(w)
    ensures Indexed(RemovePlayer(w, p))
  {
    RemoveOnce(w.players, p);
  }

  /** A logout leaves the match, the host watched and every channel, and raises nowhere. */
  lemma LogoutOrderly(w: World, p: Player)
    requires Orderly(w)
    ensures var o := Logout(w, p); o.ok && Orderly(o.w)
    ensures var v := P(Logout(w, p).w, p); v.currentMatch == null && v.spectating == null && v.channels == []
  {
    LeaveMatchOrderly(w, p);
    var w1 := LeaveMatch(w, p).w;
    StopSpectatingOrderly(w1, p);
    var w2 := StopSpectatingAny(w1, p).w;
    LogoutLoopOrderly(w2, p);
    RemovedPlayerOrderly(LeaveChannels(w2, p).w, p);
  }

  // ---------------------------------------------------------------- every step

  /** What is given of every request: objects it makes are new, and it is about players who are online and
      matches there have been. */
  predicate Given(w: World, e: Event) {
    && Fresh(w, e)
    && match e
       case Spectate(p, target, c) => p in w.players && c !in w.ch && c !in w.channels && c.name == Spec(target)
       case Create(p, m, _, _) => p in w.players && NewChat(w, m)
       case Join(p, _, _, _) => p in w.players
       case MpForce(_, _, target) => target in w.players
       case TimerOff(m) => m in w.ma
       case ScrimPlayScored(m, _) => m in w.ma
       case _ => true
  }

  /** What the code takes for granted of its clients: nobody logs in twice, nobody parts from the channel they
      watch from or play in, a match is created by a player without one and with mods that fit its freemods
      setting, no occupied slot is reopened, and the point of a play fits the scrim when it comes in. */
  predicate Conduct(w: World, e: Event) {
    match e
    case Login(p, _) => p.id !in w.byId
    case ChannelPart(p, name) =>
      var c := FindChannel(w.channels, name);
      c.Some? && p in C(w, c.value) ==> FreeToLeave(w, p, c.value)
    case Create(p, m, silenced, d) => Creates(w, p, silenced) ==> P(w, p).currentMatch == null && Conformed(d)
    case InMatch(p, manager, a) =>
      var m := P(w, p).currentMatch;
      m != null ==> !Reopens(M(w, m), p, Host(w, m), manager, a)
    case ScrimPlayScored(m, scores) => PointFits(M(w, m).scrim, M(w, m).teamType, scores)
    case _ => true
  }

  predicate Protocol(w: World, e: Event) {
    Given(w, e) && Conduct(w, e)
  }

  lemma JoinNamedOrderly(w: World, p: Player, name: ChannelName)
    requires Orderly(w)
    ensures Orderly(JoinNamed(w, p, name).w)
  {
    var found := FindChannel(w.channels, name);
    if found.Some? {
      JoiningKeepsOrder(w, p, found.value, null);
    }
  }

  lemma PartNamedOrderlyExactly(w: World, p: Player, name: ChannelName)
    requires Orderly(w)
    ensures var o, c := PartNamed(w, p, name), FindChannel(w.channels, name);
      o.ok && (Orderly(o.w) <==> (c.Some? && p in C(w, c.value) ==> FreeToLeave(w, p, c.value)))
  {
    var found := FindChannel(w.channels, name);
    if found.Some? && p in C(w, found.value) {
      PartOrderlyExactly(w, p, found.value);
    }
  }

  lemma OwnMatchListed(w: World, p: Player)
    requires Orderly(w) && P(w, p).currentMatch != null
    ensures P(w, p).currentMatch in w.matches && Host(w, P(w, p).currentMatch) != null
  {
    InOwnMatch(w, p);
  }

  lemma ForceOrderly(w: World, p: Player, manager: bool, target: Player)
    requires Orderly(w) && target in w.players
    ensures var o := ForceJoin(w, p, manager, target); o.ok && Orderly(o.w)
  {
    if P(w, p).currentMatch != null {
      OwnMatchListed(w, p);
      JoinOrderly(w, target, P(w, p).currentMatch, true);
    }
  }

  lemma JoinListedOrderly(w: World, p: Player, index: nat, silenced: bool, accepted: bool)
    requires Orderly(w) && p in w.players
    ensures var o := JoinListed(w, p, index, silenced, accepted); o.ok && Orderly(o.w)
  {
    if Listed(w, index) != null {
      JoinOrderly(w, p, Listed(w, index), accepted);
    }
  }

  /** Steps that are all of a player's own business about seats. */
  predicate SeatStep(e: Event) {
    e.Join? || e.Part? || e.MpForce? || e.TourneyJoin? || e.TourneyLeave? || e.LogoutStep?
  }

  lemma SeatStepOrderly(w: World, e: Event)
    requires Orderly(w) && Given(w, e) && SeatStep(e)
    ensures Step(w, e).ok && Orderly(Step(w, e).w)
  {
    match e
    case LogoutStep(p) => LogoutOrderly(w, p);
    case Join(p, index, silenced, accepted) => JoinListedOrderly(w, p, index, silenced, accepted);
    case Part(p) => LeaveMatchOrderly(w, p);
    case TourneyJoin(p, index) => TourneyJoinedOrderly(w, p, Listed(w, index));
    case TourneyLeave(p, index) => TourneyLeftOrderly(w, p, Listed(w, index));
    case MpForce(p, manager, target) => ForceOrderly(w, p, manager, target);
  }

  lemma FreshSpectateOrderly(w: World, p: Player, target: int, c: Channel)
    requires Orderly(w) && p in w.players && c !in w.ch && c !in w.channels && c.name == Spec(target)
    ensures var o := StartSpectating(w, p, target, c); o.ok && Orderly(o.w)
  {
    if target in w.byId {
      StillNewAfterStopping(w, p, w.byId[target], c);
    }
    SpectateOrderly(w, p, target, c);
  }

  /** Steps that no client can do wrong. */
  predicate SafeStep(e: Event) {
    SeatStep(e) || e.SetPrivileges? || e.SetInLobby? || e.ChannelJoin? || e.Spectate? || e.StopSpectating? || e.TimerOff?
  }

  lemma SafeStepOrderly(w: World, e: Event)
    requires Orderly(w) && Given(w, e) && SafeStep(e)
    ensures Step(w, e).ok && Orderly(Step(w, e).w)
  {
    match e
    case SetPrivileges(p, priv) => ProfileOrderly(w, p, P(w, p).(priv := priv));
    case SetInLobby(p, inLobby) => ProfileOrderly(w, p, P(w, p).(inLobby := inLobby));
    case ChannelJoin(p, name) => JoinNamedOrderly(w, p, name);
    case Spectate(p, target, created) => FreshSpectateOrderly(w, p, target, created);
    case StopSpectating(p) => StopSpectatingOrderly(w, p);
    case TimerOff(m) => TimerOrderly(w, m);
    case _ => SeatStepOrderly(w, e);
  }

  /** Every step keeps the session in order if and only if it is within the conduct expected of clients, and
      then it does not raise. */
  lemma StepOrderlyExactly(w: World, e: Event)
    requires Orderly(w) && Given(w, e)
    ensures Orderly(Step(w, e).w) <==> Conduct(w, e)
    ensures Conduct(w, e) ==> Step(w, e).ok
  {
    match e
    case Login(p, priv) => LoginOrderlyExactly(w, p, priv);
    case ChannelPart(p, name) => PartNamedOrderlyExactly(w, p, name);
    case Create(p, m, silenced, creation) => CreateOrderlyExactly(w, p, m, silenced, creation);
    case InMatch(p, manager, action) =>
      if P(w, p).currentMatch != null {
        ActOrderlyExactly(w, p, manager, action);
      }
    case ScrimPlayScored(m, scores) => ScoredOrderlyExactly(w, m, scores);
    case _ => SafeStepOrderly(w, e);
  }

  // ---------------------------------------------------------------- every run

  predicate ProtocolRun(w: World, run: seq<Event>)
    decreases |run|
  {
    run == [] || (Protocol(w, run[0]) && ProtocolRun(Step(w, run[0]).w, run[1..]))
  }

  predicate NeverRaises(w: World, run: seq<Event>)
    decreases |run|
  {
    run == [] || (Step(w, run[0]).ok && NeverRaises(Step(w, run[0]).w, run[1..]))
  }

  /** The server as it starts: nobody online, and nothing listed but public channels with nobody in them. */
  predicate Initial(w: World) {
    && w.players == [] && w.byId == map[] && w.pl == map[] && w.ma == map[] && (forall c <- w.ch :: w.ch[c] == [])
    && (forall i :: 0 <= i < |w.matches| ==> w.matches[i] == null)
    && Distinct(w.channels) && forall c <- w.channels :: !c.Instance()
  }

  lemma InitialOrderly(w: World)
    requires Initial(w)
    ensures Orderly(w)
  {
    assert SeatSafety.Seated(w) && Channelled(w) && Indexed(w) && Attending(w) && PlayedByTheRules(w);
    assert Listing(w, null);
  }

  lemma {:induction false} RunOrderly(w: World, run: seq<Event>)
    requires Orderly(w) && ProtocolRun(w, run)
    ensures NeverRaises(w, run) && Orderly(SeatSafety.After(w, run))
    decreases |run|
  {
    if run != [] {
      StepOrderlyExactly(w, run[0]);
      RunOrderly(Step(w, run[0]).w, run[1..]);
    }
  }

  /** What order means to a reader: a player's match is the one they occupy exactly one slot of. */
  lemma InMatchIffOneSlot(w: World, p: Player, m: Match)
    requires Orderly(w) && m in w.ma
    ensures P(w, p).currentMatch == m <==>
      exists i :: 0 <= i < SLOTS && Occupies(w.ma[m], i, p) && forall j :: 0 <= j < SLOTS && Occupies(w.ma[m], j, p) ==> j == i
  {
    if P(w, p).currentMatch == m {
      assert p in w.pl && Inside(w.ma[m], p);
      var i :| 0 <= i < SLOTS && Occupies(w.ma[m], i, p);
      assert forall j :: 0 <= j < SLOTS && Occupies(w.ma[m], j, p) ==> j == i;
    }
    if i :| 0 <= i < SLOTS && Occupies(w.ma[m], i, p) {
      assert p in Occupants(w.ma[m]);
    }
  }
}
