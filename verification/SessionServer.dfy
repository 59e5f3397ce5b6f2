/** The server's lists of players, channels and matches, and the handlers that update them and the objects
    in them in place. Every handler is proved to do the step of `Sessions` that it stands for. */
module SessionServer {
  import opened Wrappers
  import opened Multiplayer
  import opened Sessions
  import opened ChannelSafety
  import SessionRuns

  class Server {
    var players: seq<Player>
    var byId: map<int, Player>
    var matches: seq<Match?>
    var channels: seq<Channel>

    // Every object there has been, listed or not.
    ghost var allPlayers: set<Player>
    ghost var allMatches: set<Match>
    ghost var allChannels: set<Channel>
    ghost var allSlots: set<Slot>

    constructor (publicChannels: seq<Channel>)
      requires Distinct(publicChannels) && forall c <- publicChannels :: !c.Instance() && c.players == []
      ensures Valid() && SessionRuns.Initial(View()) && channels == publicChannels
      ensures matches == seq(MAX_MATCHES, i => null)
    {
      players, byId, channels := [], map[], publicChannels;
      matches := seq(MAX_MATCHES, i => null);
      allPlayers, allMatches, allSlots := {}, {}, {};
      allChannels := set c | c in publicChannels;
    }

    /** Objects refer only to objects there have been, and matches do not share slots. */
    ghost predicate Valid()
      reads this, allPlayers, allMatches
    {
      ValidLists() && ValidPlayers() && ValidMatches() && forall m <- allMatches :: m.chat in allChannels
    }

    ghost predicate ValidLists()
      reads this
    {
      && (forall p <- players :: p in allPlayers) && (forall id <- byId :: byId[id] in allPlayers)
      && (forall m <- matches :: m != null ==> m in allMatches) && (forall c <- channels :: c in allChannels)
    }

    ghost predicate ValidPlayers()
      reads this`allPlayers, this`allMatches, this`allChannels, allPlayers
    {
      forall p <- allPlayers ::
        && (p.spectating != null ==> p.spectating in allPlayers)
        && (p.currentMatch != null ==> p.currentMatch in allMatches)
        && (forall c <- p.channels :: c in allChannels)
    }

    ghost predicate ValidMatches()
      reads this`allMatches, this`allSlots, allMatches
    {
      forall m <- allMatches :: m.Valid() && forall s <- m.slots :: s in allSlots
    }

    ghost function PlayerViews(): map<Player, PlayerV>
      reads this`allPlayers, allPlayers
    {
      map p | p in allPlayers :: p.View()
    }

    ghost function MatchViews(): map<Match, MatchV>
      reads this`allMatches, this`allSlots, allMatches, allSlots
      requires ValidMatches()
    {
      map m | m in allMatches :: m.View()
    }

    ghost function Members(): map<Channel, seq<Player>>
      reads this`allChannels, allChannels
    {
      map c | c in allChannels :: c.players
    }

    /** The session as one value. */
    ghost function View(): World
      reads this, allPlayers, allMatches, allChannels, allSlots
      requires ValidMatches()
    {
      World(players, byId, matches, channels, PlayerViews(), MatchViews(), Members())
    }

    // -------------------------------------------------------------- what a change to one object does

    twostate lemma PlayerChanged(p: Player)
      requires p in allPlayers && allPlayers == old(allPlayers) && unchanged(allPlayers - {p})
      ensures PlayerViews() == old(PlayerViews())[p := p.View()]
    {
    }

    twostate lemma ChannelChanged(c: Channel)
      requires c in allChannels && allChannels == old(allChannels) && unchanged(allChannels - {c})
      ensures Members() == old(Members())[c := c.players]
    {
    }

    twostate lemma MatchChanged(m: Match)
      requires m in allMatches && unchanged(this`allMatches, this`allSlots)
      requires old(ValidMatches()) && m.slots == old(m.slots)
      requires unchanged(allMatches - {m}) && unchanged(set s | s in allSlots && s.owner != m)
      ensures ValidMatches() && MatchViews() == old(MatchViews())[m := m.View()]
    {
      forall n | n in allMatches && n != m
        ensures n.View() == old(n.View()) && n.slots == old(n.slots)
      {
        assert unchanged(n.slots);
      }
    }

    // -------------------------------------------------------------- single updates

    method SetMembers(c: Channel, members: seq<Player>)
      requires Valid() && c in allChannels
      modifies c`players
      ensures Valid() && View() == SetC(old(View()), c, members)
    {
      c.players := members;
      ChannelChanged(c);
    }

    method NewChannel(name: ChannelName) returns (c: Channel)
      requires Valid()
      modifies this`allChannels
      ensures Valid() && fresh(c) && allChannels == old(allChannels) + {c}
      ensures c.name == name && c.readPriv == {UNRESTRICTED} && View() == SetC(old(View()), c, [])
    {
      c := new Channel(name, {UNRESTRICTED});
      allChannels := allChannels + {c};
      assert Members() == old(Members())[c := []];
    }

    method SetPlayers(listed: seq<Player>)
      requires Valid() && forall p <- listed :: p in allPlayers
      modifies this`players
      ensures Valid() && View() == old(View()).(players := listed)
    {
      players := listed;
    }

    method SetIndex(index: map<int, Player>)
      requires Valid() && forall id <- index :: index[id] in allPlayers
      modifies this`byId
      ensures Valid() && View() == old(View()).(byId := index)
    {
      byId := index;
    }

    method SetListed(listed: seq<Channel>)
      requires Valid() && forall c <- listed :: c in allChannels
      modifies this`channels
      ensures Valid() && View() == old(View()).(channels := listed)
    {
      channels := listed;
    }

    method SetChannels(p: Player, joined: seq<Channel>)
      requires Valid() && p in allPlayers && forall c <- joined :: c in allChannels
      modifies p`channels
      ensures Valid() && View() == SetP(old(View()), p, P(old(View()), p).(channels := joined))
    {
      p.channels := joined;
      PlayerChanged(p);
    }

    method SetSpectators(p: Player, spectators: seq<Player>)
      requires Valid() && p in allPlayers
      modifies p`spectators
      ensures Valid() && View() == SetP(old(View()), p, P(old(View()), p).(spectators := spectators))
    {
      p.spectators := spectators;
      PlayerChanged(p);
    }

    method SetSpectating(p: Player, host: Player?)
      requires Valid() && p in allPlayers && (host != null ==> host in allPlayers)
      modifies p`spectating
      ensures Valid() && View() == SetP(old(View()), p, P(old(View()), p).(spectating := host))
    {
      p.spectating := host;
      PlayerChanged(p);
    }

    method SetMatch(p: Player, m: Match?)
      requires Valid() && p in allPlayers && (m != null ==> m in allMatches)
      modifies p`currentMatch
      ensures Valid() && View() == SetP(old(View()), p, P(old(View()), p).(currentMatch := m))
    {
      p.currentMatch := m;
      PlayerChanged(p);
    }

    method SetHostId(m: Match, id: int)
      requires Valid() && m in allMatches
      modifies m`hostId
      ensures Valid() && View() == SetM(old(View()), m, M(old(View()), m).(hostId := id))
    {
      m.hostId := id;
      MatchChanged(m);
    }

    method CancelStart(m: Match)
      requires Valid() && m in allMatches
      modifies m`starting
      ensures Valid() && View() == SetM(old(View()), m, M(old(View()), m).(starting := None))
    {
      m.starting := None;
      MatchChanged(m);
    }

    method RemoveReferee(m: Match, p: Player)
      requires Valid() && m in allMatches
      modifies m`referees
      ensures Valid() && View() == RefereeLeft(old(View()), p, m)
    {
      m.referees := m.referees - {p};
      MatchChanged(m);
    }

    method SeatPlayer(m: Match, i: nat, p: Player)
      requires Valid() && m in allMatches && i < SLOTS
      modifies m.slots
      ensures Valid() && View() == SetM(old(View()), m, Seated(M(old(View()), m), i, p))
    {
      m.SitDown(i, p);
      MatchChanged(m);
    }

    method UnseatPlayer(m: Match, i: nat)
      requires Valid() && m in allMatches && i < SLOTS
      modifies m.slots
      ensures Valid() && View() == SetM(old(View()), m, Unseated(M(old(View()), m), i))
    {
      m.StandUp(i);
      MatchChanged(m);
    }

    method SetMatches(listed: seq<Match?>)
      requires Valid() && forall m <- listed :: m != null ==> m in allMatches
      modifies this`matches
      ensures Valid() && View() == old(View()).(matches := listed)
    {
      matches := listed;
    }

    /** `Matches.remove`: the first entry that is the match is cleared. */
    method RemoveFromMatches(m: Match)
      requires Valid()
      modifies this`matches
      ensures Valid() && View() == old(View()).(matches := Unlist(old(matches), m))
    {
      var cleared := ClearedFirst(matches, m);
      SetMatches(cleared);
    }

    // -------------------------------------------------------------- channels

    method JoinChannel(p: Player, c: Channel) returns (joined: bool)
      requires Valid() && p in allPlayers && c in allChannels
      modifies p`channels, c`players
      ensures Valid() && (View(), joined) == Sessions.JoinChannel(old(View()), p, c)
    {
      if p in c.players || !c.CanRead(p.priv) || (c.name.Lobby? && !p.inLobby) {
        return false;
      }
      SetMembers(c, c.players + [p]);
      SetChannels(p, p.channels + [c]);
      joined := true;
    }

    /** `Channel.remove` */
    method RemoveMember(p: Player, c: Channel) returns (ok: bool)
      requires Valid() && p in c.players && c in allChannels
      modifies this`channels, c`players
      ensures Valid() && Outcome(View(), ok) == Sessions.RemoveMember(old(View()), p, c)
    {
      SetMembers(c, Remove(c.players, p));
      ok := true;
      if c.players == [] && c.Instance() {
        ok := c in channels;
        SetListed(Remove(channels, c));
      }
    }

    method LeaveChannel(p: Player, c: Channel) returns (ok: bool)
      requires Valid() && p in allPlayers && c in allChannels
      modifies this`channels, p`channels, c`players
      ensures Valid() && Outcome(View(), ok) == Sessions.LeaveChannel(old(View()), p, c)
    {
      if p !in c.players {
        return true;
      }
      ok := RemoveMember(p, c);
      if !ok || c !in p.channels {
        return false;
      }
      SetChannels(p, Remove(p.channels, c));
    }

    method LeaveChannels(p: Player) returns (ok: bool)
      requires Valid() && p in allPlayers
      modifies this`channels, p`channels, allChannels
      ensures Valid() && Outcome(View(), ok) == Sessions.LeaveChannels(old(View()), p)
    {
      while p.channels != []
        invariant Valid() && p in allPlayers && allChannels == old(allChannels)
        invariant Sessions.LeaveChannels(View(), p) == Sessions.LeaveChannels(old(View()), p)
        decreases |p.channels|
      {
        var left := |p.channels|;
        assert p.channels == P(View(), p).channels;
        ok := LeaveChannel(p, p.channels[0]);
        assert p.channels == P(View(), p).channels;
        if !ok || |p.channels| >= left {
          return false;
        }
      }
      assert p.channels == P(View(), p).channels;
      ok := true;
    }

    // -------------------------------------------------------------- spectators

    /** `channels.get_by_name`, which goes through the list. */
    method GetByName(name: ChannelName) returns (r: Option<Channel>)
      ensures r == FindChannel(channels, name)
    {
      for i := 0 to |channels|
        invariant FindChannel(channels, name) == FindChannel(channels[i..], name)
      {
        if channels[i].name == name {
          return Some(channels[i]);
        }
        assert channels[i..][1..] == channels[i + 1..];
      }
      r := None;
    }

    /** The host's spectator channel; without one, a new object becomes it, with the host inside. */
    method SpectatorChannel(host: Player) returns (c: Channel)
      requires Valid() && host in allPlayers
      modifies this`channels, this`allChannels, host`channels
      ensures Valid() && c in allChannels && allChannels == old(allChannels) + {c}
      ensures (c in old(allChannels) || fresh(c)) && ChannelFor(old(View()), host, c)
      ensures (View(), c) == Sessions.SpectatorChannel(old(View()), host, c)
    {
      var found := GetByName(Spec(host.id));
      if found.Some? {
        return found.value;
      }
      c := NewChannel(Spec(host.id));
      var joined := JoinChannel(host, c);
      SetListed(channels + [c]);
    }

    method AddSpectator(host: Player, p: Player) returns (ghost created: Channel)
      requires Valid() && host in allPlayers && p in allPlayers
      modifies this`channels, this`allChannels, host`channels, host`spectators, p`channels, p`spectating, allChannels
      ensures Valid() && View() == Sessions.AddSpectator(old(View()), host, p, created)
      ensures ChannelFor(old(View()), host, created)
    {
      var c := SpectatorChannel(host);
      created := c;
      var joined := JoinChannel(p, c);
      if joined {
        LinkSpectator(host, p);
      }
    }

    method LinkSpectator(host: Player, p: Player)
      requires Valid() && host in allPlayers && p in allPlayers
      modifies host`spectators, p`spectating
      ensures Valid() && View() == Sessions.LinkSpectator(old(View()), host, p)
    {
      SetSpectators(host, host.spectators + [p]);
      SetSpectating(p, host);
    }

    /** `list.remove` of an element that is not there raises, and so does the assertion on the channel. */
    method RemoveSpectator(host: Player, p: Player) returns (ok: bool)
      requires Valid() && host in allPlayers && p in allPlayers
      modifies this`channels, host`channels, host`spectators, p`channels, p`spectating, allChannels
      ensures Valid() && Outcome(View(), ok) == Sessions.RemoveSpectator(old(View()), host, p)
    {
      if p !in host.spectators {
        return false;
      }
      UnlinkSpectator(host, p);
      var found := GetByName(Spec(host.id));
      if found.None? {
        return false;
      }
      ok := LeaveChannel(p, found.value);
      if ok && host.spectators == [] {
        ok := LeaveChannel(host, found.value);
      }
    }

    method UnlinkSpectator(host: Player, p: Player)
      requires Valid() && host in allPlayers && p in allPlayers
      modifies host`spectators, p`spectating
      ensures Valid() && View() == Sessions.UnlinkSpectator(old(View()), host, p)
    {
      SetSpectators(host, Remove(host.spectators, p));
      SetSpectating(p, null);
    }

    // -------------------------------------------------------------- joining matches

    /** `match.host` */
    method GetHost(m: Match) returns (host: Player?)
      requires Valid() && m in allMatches
      ensures host == Host(View(), m) && (host != null ==> host in allPlayers)
    {
      host := if m.hostId in byId then byId[m.hostId] else null;
    }

    /** `match.enqueue_state`: it raises without a host, or on a slot that reads as having a player but has none. */
    method SendState(m: Match) returns (ok: bool)
      requires Valid() && m in allMatches
      ensures ok == Sendable(View(), m)
    {
      var host := GetHost(m);
      var written := m.ArePlayersThere();
      ok := host != null && written;
    }

    method LeaveLobby(p: Player) returns (ok: bool)
      requires Valid() && p in allPlayers
      modifies this`channels, p`channels, allChannels
      ensures Valid() && Outcome(View(), ok) == Sessions.LeaveLobby(old(View()), p)
    {
      var lobby := GetByName(Lobby);
      ok := true;
      if lobby.Some? && lobby.value in p.channels {
        ok := LeaveChannel(p, lobby.value);
      }
    }

    method SeatFor(p: Player, m: Match, accepted: bool) returns (slotId: Option<nat>, ok: bool)
      requires Valid() && p in allPlayers && m in allMatches
      ensures (slotId, ok) == Sessions.SeatFor(View(), p, m, accepted)
      ensures slotId.Some? ==> slotId.value < SLOTS
    {
      if p.currentMatch != null || p.id in m.tourneyClients {
        return None, true;
      }
      var host := GetHost(m);
      if host == null {
        return None, false;
      }
      slotId, ok := None, true;
      if p == host {
        slotId := Some(0);
      } else if accepted {
        slotId := m.FindFree();
      }
    }

    method JoinMatch(p: Player, m: Match, accepted: bool) returns (ok: bool)
      requires Valid() && p in allPlayers && m in allMatches
      modifies this`channels, p`channels, p`currentMatch, allChannels, m.slots
      ensures Valid() && Outcome(View(), ok) == Sessions.JoinMatch(old(View()), p, m, accepted)
    {
      var slotId;
      slotId, ok := SeatFor(p, m, accepted);
      if slotId.Some? {
        ok := TakeSeat(p, m, slotId.value);
      }
    }

    /** The rest of joining, once nothing speaks against it. */
    method TakeSeat(p: Player, m: Match, slotId: nat) returns (ok: bool)
      requires Valid() && p in allPlayers && m in allMatches && slotId < SLOTS
      modifies this`channels, p`channels, p`currentMatch, allChannels, m.slots
      ensures Valid() && Outcome(View(), ok) == SeatTaken(old(View()), p, m, slotId)
    {
      var joined := JoinChannel(p, m.chat);
      if !joined {
        return true;
      }
      ok := LeaveLobby(p);
      if ok {
        ok := SitDown(p, m, slotId);
      }
    }

    method SitDown(p: Player, m: Match, slotId: nat) returns (ok: bool)
      requires Valid() && p in allPlayers && m in allMatches && slotId < SLOTS
      modifies p`currentMatch, m.slots
      ensures Valid() && Outcome(View(), ok) == SatDown(old(View()), p, m, slotId)
    {
      ghost var before := View();
      Seat(p, m, slotId);
      ghost var w := View();
      ok := SendState(m);
      assert View() == w;
      SatDownAs(before, p, m, slotId, w, ok);
    }

    lemma SatDownAs(before: World, p: Player, m: Match, slotId: nat, w: World, ok: bool)
      requires w == Sessions.Seat(before, p, m, slotId) && ok == Sendable(w, m)
      ensures Outcome(w, ok) == SatDown(before, p, m, slotId)
    {
    }

    method Seat(p: Player, m: Match, slotId: nat)
      requires Valid() && p in allPlayers && m in allMatches && slotId < SLOTS
      modifies p`currentMatch, m.slots
      ensures Valid() && View() == Sessions.Seat(old(View()), p, m, slotId)
    {
      SeatPlayer(m, slotId, p);
      SetMatch(p, m);
    }

    // -------------------------------------------------------------- leaving matches

    method LeaveMatch(p: Player) returns (ok: bool)
      requires Valid() && p in allPlayers
      modifies this`channels, this`matches, p`channels, p`currentMatch, allChannels, allMatches, allSlots
      ensures Valid() && Outcome(View(), ok) == Sessions.LeaveMatch(old(View()), p)
    {
      var m := p.currentMatch;
      if m == null {
        return true;
      }
      var i := m.GetSlotId(p);
      if i.None? {
        return false;
      }
      ok := LeaveSlot(p, m, i.value);
    }

    method LeaveSlot(p: Player, m: Match, i: nat) returns (ok: bool)
      requires Valid() && p in allPlayers && m in allMatches && i < SLOTS
      modifies this`channels, this`matches, p`channels, p`currentMatch, allChannels, m, m.slots
      ensures Valid() && Outcome(View(), ok) == Sessions.LeaveSlot(old(View()), p, m, i)
    {
      UnseatPlayer(m, i);
      ok := LeaveChannel(p, m.chat);
      if !ok {
        return false;
      }
      ok := Vacate(p, m);
      if ok {
        SetMatch(p, null);
      }
    }

    method Vacate(p: Player, m: Match) returns (ok: bool)
      requires Valid() && m in allMatches
      modifies this`matches, m`starting, m`hostId, m`referees
      ensures Valid() && Outcome(View(), ok) == Vacated(old(View()), p, m)
    {
      var occupant := FindOccupant(m);
      if occupant.None? {
        CloseMatch(m);
        ok := true;
      } else {
        ok := HandOver(p, m);
      }
    }

    method FindOccupant(m: Match) returns (r: Option<Player>)
      requires Valid() && m in allMatches
      ensures r == FirstOccupant(M(View(), m)) && (r.None? <==> Empty(M(View(), m)))
    {
      r := m.FindOccupant();
      if r.Some? {
        assert Inside(M(View(), m), r.value);
      }
    }

    /** The start timer is cancelled, and the match removed from the list. */
    method CloseMatch(m: Match)
      requires Valid() && m in allMatches
      modifies this`matches, m`starting
      ensures Valid() && View() == Sessions.CloseMatch(old(View()), m)
    {
      CancelStart(m);
      RemoveFromMatches(m);
    }

    method HandOver(p: Player, m: Match) returns (ok: bool)
      requires Valid() && m in allMatches
      modifies m`hostId, m`referees
      ensures Valid() && Outcome(View(), ok) == Sessions.HandOver(old(View()), p, m)
    {
      var host := GetHost(m);
      if host == null {
        return false;
      }
      if host == p {
        Crown(m);
      }
      ok := EndPost(p, m);
    }

    method EndPost(p: Player, m: Match) returns (ok: bool)
      requires Valid() && m in allMatches
      modifies m`referees
      ensures Valid() && Outcome(View(), ok) == PostEnded(old(View()), p, m)
    {
      ghost var before := View();
      var host := GetHost(m);
      assert View() == before;
      if host == null {
        return false;
      }
      RemoveReferee(m, p);
      ok := SendState(m);
      assert View() == RefereeLeft(before, p, m);
    }

    /** The first occupant becomes the host. */
    method Crown(m: Match)
      requires Valid() && m in allMatches
      modifies m`hostId
      ensures Valid() && View() == Crowned(old(View()), m)
    {
      ghost var before := View();
      var occupant := FindOccupant(m);
      assert View() == before;
      if occupant.Some? {
        SetHostId(m, occupant.value.id);
        CrownedAs(before, m, occupant.value, View());
      }
    }

    lemma CrownedAs(w: World, m: Match, q: Player, w': World)
      requires FirstOccupant(M(w, m)) == Some(q) && w' == SetM(w, m, M(w, m).(hostId := q.id))
      ensures w' == Crowned(w, m)
    {
    }

    // -------------------------------------------------------------- handlers

    method Login(id: int, priv: Privileges) returns (p: Player)
      requires Valid()
      modifies this`players, this`byId, this`allPlayers
      ensures Valid() && fresh(p) && p.id == id && p in allPlayers
      ensures View() == LoggedIn(old(View()), p, priv)
    {
      p := NewPlayer(id, priv);
      SetPlayers(players + [p]);
      SetIndex(byId[id := p]);
    }

    method NewPlayer(id: int, priv: Privileges) returns (p: Player)
      requires Valid()
      modifies this`allPlayers
      ensures Valid() && fresh(p) && p.id == id && allPlayers == old(allPlayers) + {p}
      ensures View() == SetP(old(View()), p, NOBODY.(priv := priv))
    {
      p := new Player(id, priv);
      allPlayers := allPlayers + {p};
      PlayerAdded(p);
      PlayerKnown(p);
      RestKept();
    }

    twostate lemma RestKept()
      requires old(ValidMatches()) && unchanged(this`allMatches, this`allChannels, this`allSlots)
      requires unchanged(old(allMatches)) && unchanged(old(allChannels)) && unchanged(old(allSlots))
      ensures ValidMatches() && MatchViews() == old(MatchViews()) && Members() == old(Members())
    {
    }

    twostate lemma PlayerAdded(new p: Player)
      requires fresh(p) && allPlayers == old(allPlayers) + {p} && unchanged(old(allPlayers))
      ensures PlayerViews() == old(PlayerViews())[p := p.View()]
    {
    }

    twostate lemma PlayerKnown(new p: Player)
      requires old(ValidPlayers()) && old(ValidLists())
      requires fresh(p) && p.channels == [] && p.spectating == null && p.currentMatch == null
      requires allPlayers == old(allPlayers) + {p} && unchanged(old(allPlayers))
      requires unchanged(this`players, this`byId, this`matches, this`channels, this`allMatches, this`allChannels)
      ensures ValidPlayers() && ValidLists()
    {
    }

    method Logout(p: Player) returns (ok: bool)
      requires Valid() && p in allPlayers
      modifies this`players, this`byId, this`matches, this`channels, allPlayers, allChannels, allMatches, allSlots
      ensures Valid() && Outcome(View(), ok) == Sessions.Logout(old(View()), p)
    {
      ok := LeaveMatch(p);
      if !ok {
        return false;
      }
      ok := StopSpectating(p);
      if !ok {
        return false;
      }
      ok := LeaveChannels(p);
      if ok {
        RemovePlayer(p);
      }
    }

    /** `Players.remove` */
    method RemovePlayer(p: Player)
      requires Valid()
      modifies this`players, this`byId
      ensures Valid() && View() == Sessions.RemovePlayer(old(View()), p)
    {
      if p in players {
        SetPlayers(Remove(players, p));
        SetIndex(byId - {p.id});
      }
    }

    method StopSpectating(p: Player) returns (ok: bool)
      requires Valid() && p in allPlayers
      modifies this`channels, allPlayers, allChannels
      ensures Valid() && Outcome(View(), ok) == StopSpectatingAny(old(View()), p)
    {
      ok := true;
      if p.spectating != null {
        ok := RemoveSpectator(p.spectating, p);
      }
    }

    /** `created` is the channel object made for it, if one was. */
    method StartSpectating(p: Player, targetId: int) returns (ok: bool, ghost created: Channel?)
      requires Valid() && p in allPlayers
      modifies this`channels, this`allChannels, allPlayers, allChannels
      ensures Valid()
      ensures created == null ==> forall c :: Outcome(View(), ok) == Sessions.StartSpectating(old(View()), p, targetId, c)
      ensures created != null ==>
        && targetId in old(byId) && ChannelFor(StopSpectatingAny(old(View()), p).w, old(byId)[targetId], created)
        && Outcome(View(), ok) == Sessions.StartSpectating(old(View()), p, targetId, created)
      ensures created == null && ok ==> View() == old(View())
      ensures created == null && !ok ==> !StopSpectatingAny(old(View()), p).ok
    {
      created := null;
      ok := true;
      if targetId !in byId {
        return;
      }
      var host := byId[targetId];
      if p.spectating == host {
        return;
      }
      ok := StopSpectating(p);
      if ok {
        created := AddSpectator(host, p);
      }
    }

    method JoinNamedChannel(p: Player, name: ChannelName)
      requires Valid() && p in allPlayers
      modifies p`channels, allChannels
      ensures Valid() && Outcome(View(), true) == JoinNamed(old(View()), p, name)
    {
      var c := GetByName(name);
      if c.Some? {
        var joined := JoinChannel(p, c.value);
      }
    }

    method PartNamedChannel(p: Player, name: ChannelName) returns (ok: bool)
      requires Valid() && p in allPlayers
      modifies this`channels, p`channels, allChannels
      ensures Valid() && Outcome(View(), ok) == PartNamed(old(View()), p, name)
    {
      var c := GetByName(name);
      ok := true;
      if c.Some? {
        ok := LeaveChannel(p, c.value);
      }
    }

    /** The rules of the action are those of `Match.Perform`. */
    method PerformInMatch(p: Player, manager: bool, action: Action) returns (ok: bool)
      requires Valid() && p in allPlayers
      modifies allMatches, allSlots
      ensures Valid() && Outcome(View(), ok) == ActInMatch(old(View()), p, manager, action)
    {
      var m := p.currentMatch;
      if m == null {
        return true;
      }
      ok := PerformUnderHost(p, m, manager, action);
    }

    method PerformUnderHost(p: Player, m: Match, manager: bool, action: Action) returns (ok: bool)
      requires Valid() && m in allMatches
      modifies m, m.slots
      ensures Valid()
      ensures var w := old(View()); Outcome(View(), ok) == Settle(w, m, Act(M(w, m), p, Host(w, m), manager, action))
    {
      ghost var before, v := View(), m.View();
      var host := GetHost(m);
      ok := PerformHere(p, m, host, manager, action);
      SettledAs(before, m, v, p, host, manager, action, Outcome(View(), ok));
    }

    lemma SettledAs(w: World, m: Match, v: MatchV, p: Player, host: Player?, manager: bool, action: Action, o: Outcome)
      requires v == M(w, m) && host == Host(w, m) && o == Settle(w, m, Act(v, p, host, manager, action))
      ensures o == Settle(w, m, Act(M(w, m), p, Host(w, m), manager, action))
    {
    }

    method PerformHere(p: Player, m: Match, host: Player?, manager: bool, action: Action) returns (ok: bool)
      requires Valid() && m in allMatches
      modifies m, m.slots
      ensures Valid() && Outcome(View(), ok) == Settle(old(View()), m, Act(old(m.View()), p, host, manager, action))
    {
      ghost var before := View();
      var sends;
      ghost var r;
      ok, sends, r := PerformIn(m, p, host, manager, action);
      ok := SendIfAsked(m, ok, sends, before, r);
    }

    method PerformIn(m: Match, p: Player, host: Player?, manager: bool, action: Action)
      returns (ok: bool, sends: bool, ghost r: Result)
      requires Valid() && m in allMatches
      modifies m, m.slots
      ensures Valid() && r == Act(old(m.View()), p, host, manager, action)
      ensures View() == SetM(old(View()), m, r.m) && ok == r.ok && sends == r.sends
    {
      ok, sends := m.Perform(p, host, manager, action);
      r := Result(m.View(), ok, sends);
      MatchChanged(m);
    }

    method SendIfAsked(m: Match, ok: bool, sends: bool, ghost before: World, ghost r: Result) returns (sent: bool)
      requires Valid() && m in allMatches
      requires View() == SetM(before, m, r.m) && ok == r.ok && sends == r.sends
      ensures Outcome(View(), sent) == Settle(before, m, r)
    {
      sent := ok;
      if ok && sends {
        sent := SendState(m);
      }
    }

    method CreateMatch(p: Player, silenced: bool, d: Creation) returns (ok: bool, m: Match?)
      requires Valid() && p in allPlayers
      modifies this, allPlayers, allChannels, allMatches, allSlots
      ensures Valid() && (m != null <==> Creates(old(View()), p, silenced))
      ensures m == null ==> Outcome(View(), ok) == Outcome(old(View()), true)
      ensures m != null ==>
        && fresh(m) && fresh(m.chat) && m.chat.name.Multi? && m.chat.readPriv == {UNRESTRICTED}
        && Outcome(View(), ok) == Sessions.CreateMatch(old(View()), p, m, silenced, d)
    {
      ok, m := true, null;
      if UNRESTRICTED !in p.priv || silenced {
        return;
      }
      var id := FindFreeId();
      if id.None? {
        return;
      }
      m := Register(id.value, p, d);
      ok := JoinMatch(p, m, true);
    }

    /** `Matches.get_free` */
    method FindFreeId() returns (r: Option<nat>)
      ensures r == FreeId(matches)
    {
      for i := 0 to |matches|
        invariant forall j :: 0 <= j < i ==> matches[j] != null
      {
        if matches[i] == null {
          return Some(i);
        }
      }
      r := None;
    }

    /** The match and its channel are made and listed. */
    method Register(id: nat, p: Player, d: Creation) returns (m: Match)
      requires Valid() && p in allPlayers && FreeId(matches) == Some(id)
      modifies this`matches, this`channels, this`allMatches, this`allChannels, this`allSlots
      ensures Valid() && fresh(m) && fresh(m.chat) && fresh(m.slots) && m in allMatches
      ensures m.chat.name == Multi(id) && m.chat.readPriv == {UNRESTRICTED}
      ensures allPlayers == old(allPlayers) && allChannels == old(allChannels) + {m.chat}
      ensures View() == Registered(old(View()), p, m, d)
    {
      var chat := NewChannel(Multi(id));
      m := NewMatchObject(id, chat, p, d);
      SetMatches(matches[id := m]);
      SetListed(channels + [chat]);
    }

    method NewMatchObject(id: nat, chat: Channel, p: Player, d: Creation) returns (m: Match)
      requires Valid() && chat in allChannels
      modifies this`allMatches, this`allSlots
      ensures Valid() && fresh(m) && fresh(m.slots) && m in allMatches && m.chat == chat
      ensures View() == SetM(old(View()), m, NewMatch(p.id, d.mods, d.freemods, d.teamType))
    {
      m := new Match(id, chat, p.id, d.mods, d.freemods, d.teamType);
      allMatches := allMatches + {m};
      allSlots := allSlots + set s | s in m.slots;
      MatchAdded(m);
      MoreMatchesKnown();
    }

    twostate lemma MoreMatchesKnown()
      requires old(ValidPlayers()) && old(ValidLists()) && old(allMatches) <= allMatches && unchanged(old(allPlayers))
      requires unchanged(this`players, this`byId, this`matches, this`channels, this`allPlayers, this`allChannels)
      ensures ValidPlayers() && ValidLists()
    {
    }

    twostate lemma MatchAdded(new m: Match)
      requires old(ValidMatches()) && fresh(m) && fresh(m.slots) && m.Valid()
      requires allMatches == old(allMatches) + {m} && allSlots == old(allSlots) + set s | s in m.slots
      requires unchanged(old(allMatches)) && unchanged(old(allSlots))
      ensures ValidMatches() && MatchViews() == old(MatchViews())[m := m.View()]
    {
      forall n | n in old(allMatches)
        ensures n.View() == old(n.View())
      {
        assert unchanged(n.slots);
      }
    }

    /** `matches[index]`, in or out of range. */
    function ListedMatch(index: nat): (m: Match?)
      reads this`matches
      ensures m == null || m in matches
    {
      if index < |matches| then matches[index] else null
    }

    method JoinListedMatch(p: Player, index: nat, silenced: bool, accepted: bool) returns (ok: bool)
      requires Valid() && p in allPlayers
      modifies this`channels, p`channels, p`currentMatch, allChannels, allSlots
      ensures Valid() && Outcome(View(), ok) == JoinListed(old(View()), p, index, silenced, accepted)
    {
      var m := ListedMatch(index);
      ok := true;
      if m != null && UNRESTRICTED in p.priv && !silenced {
        ok := JoinMatch(p, m, accepted);
      }
    }

    method ForceInto(p: Player, manager: bool, target: Player) returns (ok: bool)
      requires Valid() && p in allPlayers && target in allPlayers
      modifies this`channels, target`channels, target`currentMatch, allChannels, allSlots
      ensures Valid() && Outcome(View(), ok) == ForceJoin(old(View()), p, manager, target)
    {
      var m := p.currentMatch;
      if m == null {
        return true;
      }
      var host := GetHost(m);
      if host == null {
        return false;
      }
      ok := true;
      if p in m.referees + {host} || manager {
        ok := JoinMatch(target, m, true);
      }
    }

    method JoinAsTourneyClient(p: Player, m: Match?) returns (ok: bool)
      requires Valid() && p in allPlayers && (m != null ==> m in allMatches)
      modifies p`channels, allChannels, allMatches
      ensures Valid() && Outcome(View(), ok) == TourneyJoined(old(View()), p, m)
    {
      ok := true;
      if m == null {
        return;
      }
      var playing := m.HasPlayerWithId(p.id);
      if playing {
        return;
      }
      var joined := JoinChannel(p, m.chat);
      if joined {
        SetClients(m, m.tourneyClients + {p.id});
      }
    }

    method LeaveAsTourneyClient(p: Player, m: Match?) returns (ok: bool)
      requires Valid() && p in allPlayers && (m != null ==> m in allMatches)
      modifies this`channels, p`channels, allChannels, allMatches
      ensures Valid() && Outcome(View(), ok) == TourneyLeft(old(View()), p, m)
    {
      ok := true;
      if m == null || p.id !in m.tourneyClients {
        return;
      }
      ok := LeaveChannel(p, m.chat);
      if ok {
        SetClients(m, m.tourneyClients - {p.id});
      }
    }

    method SetClients(m: Match, ids: set<int>)
      requires Valid() && m in allMatches
      modifies m`tourneyClients
      ensures Valid() && View() == SetM(old(View()), m, M(old(View()), m).(tourneyClients := ids))
    {
      m.tourneyClients := ids;
      MatchChanged(m);
    }

    // -------------------------------------------------------------- one object's fields

    method SetPrivileges(p: Player, priv: Privileges)
      requires Valid() && p in allPlayers
      modifies p`priv
      ensures Valid() && View() == SetP(old(View()), p, P(old(View()), p).(priv := priv))
    {
      p.priv := priv;
      PlayerChanged(p);
    }

    method SetInLobby(p: Player, inLobby: bool)
      requires Valid() && p in allPlayers
      modifies p`inLobby
      ensures Valid() && View() == SetP(old(View()), p, P(old(View()), p).(inLobby := inLobby))
    {
      p.inLobby := inLobby;
      PlayerChanged(p);
    }

    method TimerGoesOff(m: Match) returns (ok: bool)
      requires Valid() && m in allMatches
      modifies m, m.slots
      ensures Valid() && Outcome(View(), ok) == Settle(old(View()), m, TimerFired(M(old(View()), m)))
    {
      ghost var before, v := View(), m.View();
      ok := StartTimerOff(m);
      TimerSettledAs(before, m, v, Outcome(View(), ok));
    }

    lemma TimerSettledAs(w: World, m: Match, v: MatchV, o: Outcome)
      requires v == M(w, m) && o == Settle(w, m, TimerFired(v))
      ensures o == Settle(w, m, TimerFired(M(w, m)))
    {
    }

    method StartTimerOff(m: Match) returns (ok: bool)
      requires Valid() && m in allMatches
      modifies m, m.slots
      ensures Valid() && Outcome(View(), ok) == Settle(old(View()), m, TimerFired(old(m.View())))
    {
      ghost var before := View();
      var sends;
      ok, sends := m.FireTimer();
      ghost var r := Result(m.View(), ok, sends);
      MatchChanged(m);
      ok := SendIfAsked(m, ok, sends, before, r);
    }

    method ScoreListedPlay(m: Match, scores: seq<(Side, int)>) returns (ok: bool)
      requires Valid() && m in allMatches
      modifies m
      ensures Valid() && Outcome(View(), ok) == PlayScored(old(View()), m, scores)
    {
      ghost var before, v := View(), m.View();
      ok := ScorePlay(m, scores);
      PointSetAs(before, m, v, scores, Outcome(View(), ok));
    }

    lemma PointSetAs(w: World, m: Match, v: MatchV, scores: seq<(Side, int)>, o: Outcome)
      requires v == M(w, m) && o == PointSet(w, m, PointAwarded(v.scrim, v.teamType, scores))
      ensures o == PlayScored(w, m, scores)
    {
    }

    method ScorePlay(m: Match, scores: seq<(Side, int)>) returns (ok: bool)
      requires Valid() && m in allMatches
      modifies m
      ensures Valid()
      ensures Outcome(View(), ok) == PointSet(old(View()), m, PointAwarded(old(m.View()).scrim, old(m.View()).teamType, scores))
    {
      ghost var v, before := m.View(), View();
      ok := ScoreScrim(m, scores);
      MatchChanged(m);
      assert View() == SetM(before, m, v.(scrim := m.View().scrim));
    }

    method ScoreScrim(m: Match, scores: seq<(Side, int)>) returns (ok: bool)
      modifies m
      ensures m.slots == old(m.slots) && m.View() == old(m.View()).(scrim := m.View().scrim)
      ensures (m.View().scrim, ok) == PointAwarded(old(m.View()).scrim, old(m.View()).teamType, scores)
    {
      ok := m.UpdateMatchpoints(scores);
      OnlyScrimChanged(m);
    }

    twostate lemma OnlyScrimChanged(m: Match)
      requires m.slots == old(m.slots) && unchanged(m.slots)
      requires unchanged(m`hostId, m`referees, m`mods, m`freemods, m`teamType, m`inProgress, m`starting, m`tourneyClients)
      ensures m.View() == old(m.View()).(scrim := m.ScrimView())
    {
    }
  }

  /** The first entry that is `m` is cleared. */
  method ClearedFirst(matches: seq<Match?>, m: Match) returns (r: seq<Match?>)
    ensures r == Unlist(matches, m)
  {
    for i := 0 to |matches|
      invariant forall j :: 0 <= j < i ==> matches[j] != m
    {
      if matches[i] == m {
        UnlistFirst(matches, m, i);
        return matches[i := null];
      }
    }
    UnlistAbsent(matches, m);
    r := matches;
  }

  lemma {:induction false} UnlistFirst(matches: seq<Match?>, m: Match, i: nat)
    requires i < |matches| && matches[i] == m && forall j :: 0 <= j < i ==> matches[j] != m
    ensures Unlist(matches, m) == matches[i := null]
  {
    if i > 0 {
      UnlistFirst(matches[1..], m, i - 1);
      assert matches[i := null] == [matches[0]] + matches[1..][i - 1 := null];
    }
  }

  lemma {:induction false} UnlistAbsent(matches: seq<Match?>, m: Match)
    requires forall j :: 0 <= j < |matches| ==> matches[j] != m
    ensures Unlist(matches, m) == matches
  {
    if matches != [] {
      UnlistAbsent(matches[1..], m);
    }
  }
}
