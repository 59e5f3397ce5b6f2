/** The server from its start on: any request within the conduct expected of clients is served without an
    exception, and leaves the lists, players, channels, matches and slots in order. */
module OrderlyServer {
  import opened Wrappers
  import opened Multiplayer
  import opened Sessions
  import opened SessionSafety
  import opened SessionRuns
  import opened SessionServer
  import ChannelSafety
  import SeatSafety

  ghost predicate InOrder(s: Server)
    reads s, s.allPlayers, s.allMatches, s.allChannels, s.allSlots
  {
    s.Valid() && Orderly(s.View())
  }

  method Start(publicChannels: seq<Channel>) returns (s: Server)
    requires ChannelSafety.Distinct(publicChannels)
    requires forall c <- publicChannels :: !c.Instance() && c.players == []
    ensures fresh(s) && InOrder(s)
  {
    s := new Server(publicChannels);
    InitialOrderly(s.View());
  }

  // ---------------------------------------------------------------- requests that make objects

  method ServeLogin(s: Server, id: int, priv: Privileges) returns (p: Player)
    requires InOrder(s) && id !in s.byId
    modifies s`players, s`byId, s`allPlayers
    ensures InOrder(s) && p.id == id && p in s.players
  {
    ghost var w := s.View();
    p := s.Login(id, priv);
    LoginOrderly(w, p, priv);
  }

  method ServeCreate(s: Server, p: Player, silenced: bool, d: Creation) returns (ok: bool)
    requires InOrder(s) && p in s.players
    requires Creates(s.View(), p, silenced) ==> P(s.View(), p).currentMatch == null && Conformed(d)
    modifies s, s.allPlayers, s.allChannels, s.allMatches, s.allSlots
    ensures InOrder(s) && ok
  {
    ghost var w := s.View();
    var m;
    ok, m := s.CreateMatch(p, silenced, d);
    if m != null {
      assert m !in w.ma && NewChat(w, m);
      CreationOrderly(w, p, m, silenced, d, Outcome(s.View(), ok));
    }
  }

  lemma CreationOrderly(w: World, p: Player, m: Match, silenced: bool, d: Creation, o: Outcome)
    requires Orderly(w) && p in w.players && m !in w.ma && NewChat(w, m)
    requires Creates(w, p, silenced) ==> P(w, p).currentMatch == null && Conformed(d)
    requires o == CreateMatch(w, p, m, silenced, d)
    ensures Orderly(o.w) && o.ok
  {
    CreateOrderlyExactly(w, p, m, silenced, d);
  }

  method ServeSpectate(s: Server, p: Player, targetId: int) returns (ok: bool)
    requires InOrder(s) && p in s.players
    modifies s`channels, s`allChannels, s.allPlayers, s.allChannels
    ensures InOrder(s) && ok
  {
    ghost var w := s.View();
    ghost var created;
    ok, created := s.StartSpectating(p, targetId);
    if created != null {
      SpectateOrderly(w, p, targetId, created);
    } else {
      StopSpectatingOrderly(w, p);
    }
  }

  // ---------------------------------------------------------------- requests that make none

  predicate MakesObjects(e: Event) {
    e.Login? || e.Create? || e.Spectate?
  }

  /** The objects that the request is about are known to the server. */
  predicate Known(w: World, e: Event) {
    match e
    case TimerOff(m) => m in w.ma
    case ScrimPlayScored(m, _) => m in w.ma
    case MpForce(p, _, target) => p in w.pl && target in w.pl
    case _ => e.p in w.pl
  }

  /** One request about seats, by the handler it goes to. */
  method HandleSeats(s: Server, e: Event) returns (ok: bool)
    requires s.Valid() && SeatStep(e) && !e.TourneyJoin? && !e.TourneyLeave? && Known(s.View(), e)
    modifies s`players, s`byId, s`matches, s`channels, s.allPlayers, s.allChannels, s.allMatches, s.allSlots
    ensures s.Valid() && Outcome(s.View(), ok) == Step(old(s.View()), e)
  {
    match e {
      case LogoutStep(p) => ok := s.Logout(p);
      case Join(p, index, silenced, accepted) => ok := s.JoinListedMatch(p, index, silenced, accepted);
      case Part(p) => ok := s.LeaveMatch(p);
      case MpForce(p, manager, target) => ok := s.ForceInto(p, manager, target);
    }
  }

  method HandleTourney(s: Server, e: Event) returns (ok: bool)
    requires s.Valid() && Known(s.View(), e) && (e.TourneyJoin? || e.TourneyLeave?)
    modifies s`channels, s.allPlayers, s.allChannels, s.allMatches
    ensures s.Valid() && Outcome(s.View(), ok) == Step(old(s.View()), e)
  {
    if e.TourneyJoin? {
      ok := s.JoinAsTourneyClient(e.p, s.ListedMatch(e.index));
    } else {
      ok := s.LeaveAsTourneyClient(e.p, s.ListedMatch(e.index));
    }
  }

  /** One request about channels or a player's own fields. */
  method HandleOwn(s: Server, e: Event) returns (ok: bool)
    requires s.Valid() && Known(s.View(), e)
    requires e.SetPrivileges? || e.SetInLobby? || e.ChannelJoin? || e.ChannelPart? || e.StopSpectating?
    modifies s`channels, s.allPlayers, s.allChannels
    ensures s.Valid() && Outcome(s.View(), ok) == Step(old(s.View()), e)
  {
    ok := true;
    match e {
      case SetPrivileges(p, priv) => s.SetPrivileges(p, priv);
      case SetInLobby(p, inLobby) => s.SetInLobby(p, inLobby);
      case ChannelJoin(p, name) => s.JoinNamedChannel(p, name);
      case ChannelPart(p, name) => ok := s.PartNamedChannel(p, name);
      case StopSpectating(p) => ok := s.StopSpectating(p);
    }
  }

  /** One request or timer about a match. */
  method HandleMatch(s: Server, e: Event) returns (ok: bool)
    requires s.Valid() && Known(s.View(), e) && (e.InMatch? || e.TimerOff? || e.ScrimPlayScored?)
    modifies s.allMatches, s.allSlots
    ensures s.Valid() && Outcome(s.View(), ok) == Step(old(s.View()), e)
  {
    match e {
      case InMatch(p, manager, action) => ok := s.PerformInMatch(p, manager, action);
      case TimerOff(m) => ok := s.TimerGoesOff(m);
      case ScrimPlayScored(m, scores) => ok := s.ScoreListedPlay(m, scores);
    }
  }

  method Handle(s: Server, e: Event) returns (ok: bool)
    requires s.Valid() && !MakesObjects(e) && Known(s.View(), e)
    modifies s`players, s`byId, s`matches, s`channels, s.allPlayers, s.allChannels, s.allMatches, s.allSlots
    ensures s.Valid() && Outcome(s.View(), ok) == Step(old(s.View()), e)
  {
    if e.TourneyJoin? || e.TourneyLeave? {
      ok := HandleTourney(s, e);
    } else if SeatStep(e) {
      ok := HandleSeats(s, e);
    } else if e.InMatch? || e.TimerOff? || e.ScrimPlayScored? {
      ok := HandleMatch(s, e);
    } else {
      ok := HandleOwn(s, e);
    }
  }

  /** A request within the protocol is served. */
  method Serve(s: Server, e: Event) returns (ok: bool)
    requires InOrder(s) && !MakesObjects(e) && Known(s.View(), e) && Protocol(s.View(), e)
    modifies s`players, s`byId, s`matches, s`channels, s.allPlayers, s.allChannels, s.allMatches, s.allSlots
    ensures InOrder(s) && ok && s.View() == Step(old(s.View()), e).w
  {
    StepOrderlyExactly(s.View(), e);
    ok := Handle(s, e);
  }
}
