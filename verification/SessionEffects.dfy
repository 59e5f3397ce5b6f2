/** What each step of the session changes, and what it leaves alone: channels, spectators, seats and lists. */
module SessionEffects {
  import opened Wrappers
  import opened Multiplayer
  import opened Sessions
  import opened ChannelSafety

  // ---------------------------------------------------------------- lists

  lemma {:induction false} RemoveTakesFirst<T>(s: seq<T>, x: T, i: nat)
    requires i < |s| && s[i] == x && forall j :: 0 <= j < i ==> s[j] != x
    ensures Remove(s, x) == s[..i] + s[i + 1..]
  {
    if i > 0 {
      RemoveTakesFirst(s[1..], x, i - 1);
      assert s[..i] + s[i + 1..] == [s[0]] + (s[1..][..i - 1] + s[1..][i..]);
    }
  }

  /** The channel that a name means: the first listed one. */
  ghost predicate Means(w: World, name: ChannelName, c: Channel) {
    exists i :: 0 <= i < |w.channels| && FirstNamed(w.channels, name, i) && w.channels[i] == c
  }

  ghost predicate FirstNamed(channels: seq<Channel>, name: ChannelName, i: int)
    requires 0 <= i < |channels|
  {
    channels[i].name == name && forall j :: 0 <= j < i ==> channels[j].name != name
  }

  lemma {:induction false} NameIsFound(channels: seq<Channel>, name: ChannelName, i: nat)
    requires i < |channels| && FirstNamed(channels, name, i)
    ensures FindChannel(channels, name) == Some(channels[i])
  {
    if i > 0 {
      NameIsFound(channels[1..], name, i - 1);
    }
  }

  lemma {:induction false} FoundIsFirst(channels: seq<Channel>, name: ChannelName) returns (i: nat)
    requires FindChannel(channels, name).Some?
    ensures i < |channels| && FirstNamed(channels, name, i) && FindChannel(channels, name).value == channels[i]
  {
    if channels[0].name == name {
      i := 0;
    } else {
      i := FoundIsFirst(channels[1..], name);
      i := i + 1;
    }
  }

  /** A name means the channel that is found, or none. */
  lemma FoundIsMeant(w: World, name: ChannelName)
    ensures match FindChannel(w.channels, name)
      case Some(c) => forall d :: Means(w, name, d) <==> d == c
      case None => forall d :: !Means(w, name, d)
  {
    if FindChannel(w.channels, name).Some? {
      var i := FoundIsFirst(w.channels, name);
    }
  }

  // ---------------------------------------------------------------- channels

  /** Nobody joins twice, without a read privilege the channel asks for, or the lobby from outside it. */
  ghost predicate MayJoin(w: World, p: Player, c: Channel) {
    && p !in C(w, c)
    && (c.readPriv != {} ==> exists b: nat :: b in c.readPriv && b in P(w, p).priv)
    && (c.name == Lobby ==> P(w, p).inLobby)
  }

  /** Last in the channel, and the channel last among the player's. */
  ghost predicate Joined(w: World, p: Player, c: Channel, w': World) {
    w' == w.(ch := w.ch[c := C(w, c) + [p]], pl := w.pl[p := P(w, p).(channels := P(w, p).channels + [c])])
  }

  lemma JoinChannelExactly(w: World, p: Player, c: Channel)
    ensures var (w', joined) := JoinChannel(w, p, c);
      && (joined <==> MayJoin(w, p, c))
      && if MayJoin(w, p, c) then Joined(w, p, c, w') else w' == w
  {
    if c.readPriv != {} && P(w, p).priv * c.readPriv != {} {
      var b :| b in P(w, p).priv * c.readPriv;
      assert b in c.readPriv && b in P(w, p).priv;
    }
    if b: nat :| b in c.readPriv && b in P(w, p).priv {
      assert b in P(w, p).priv * c.readPriv;
    }
  }

  /** The player and the channel forget each other; an instanced channel goes with its last member. */
  ghost predicate LeftBy(w: World, p: Player, c: Channel, w': World) {
    && w' == w.(ch := w.ch[c := C(w', c)], pl := w.pl[p := P(w, p).(channels := P(w', p).channels)], channels := w'.channels)
    && C(w', c) == Remove(C(w, c), p)
    && P(w', p).channels == Remove(P(w, p).channels, c)
    && w'.channels ==
         if C(w', c) == [] && (c.name.Multi? || c.name.Spec?) then Remove(w.channels, c) else w.channels
  }

  /** Leaving raises exactly when the two lists disagree, or the emptied channel is not listed. */
  lemma LeaveChannelExactly(w: World, p: Player, c: Channel)
    ensures var o := LeaveChannel(w, p, c);
      if p !in C(w, c) then o == Outcome(w, true)
      else
        && (o.ok <==>
              && c in P(w, p).channels
              && (Remove(C(w, c), p) == [] && (c.name.Multi? || c.name.Spec?) ==> c in w.channels))
        && (o.ok ==> LeftBy(w, p, c, o.w))
        && (!o.ok ==> o.w == w.(ch := w.ch[c := Remove(C(w, c), p)], channels := o.w.channels))
  {
  }

  lemma NamedChannelSteps(w: World, p: Player, name: ChannelName)
    ensures (forall c :: !Means(w, name, c)) ==>
      Step(w, ChannelJoin(p, name)) == Outcome(w, true) == Step(w, ChannelPart(p, name))
    ensures forall c :: Means(w, name, c) ==>
      var o := Step(w, ChannelJoin(p, name));
      o.ok && if MayJoin(w, p, c) then Joined(w, p, c, o.w) else o.w == w
    ensures forall c :: Means(w, name, c) ==>
      var o := Step(w, ChannelPart(p, name));
      if p !in C(w, c) then o == Outcome(w, true) else o.ok ==> LeftBy(w, p, c, o.w)
  {
    FoundIsMeant(w, name);
    if FindChannel(w.channels, name).Some? {
      var c := FindChannel(w.channels, name).value;
      assert Means(w, name, c);
      JoinChannelExactly(w, p, c);
      LeaveChannelExactly(w, p, c);
    }
  }

  // ---------------------------------------------------------------- spectators

  /** The channel that spectators of `host` get, listed already or made for them with the host inside. */
  ghost predicate SpectatorsMeet(w: World, host: Player, created: Channel, c: Channel, w': World) {
    if exists d <- w.channels :: d.name == Spec(host.id) then w' == w && Means(w, Spec(host.id), c)
    else
      var listed := w.(channels := w.channels + [created], ch := w.ch[created := []]);
      && c == created
      && if MayJoin(listed, host, c) then Joined(listed, host, c, w') else w' == listed
  }

  /** `p` watches `host`, last of the host's spectators, and from the channel. */
  ghost predicate Watches(w: World, host: Player, p: Player, c: Channel, w': World) {
    && w' == w.(pl := w'.pl, ch := w.ch[c := C(w, c) + [p]]) && w'.pl.Keys == w.pl.Keys + {p, host}
    && P(w', p).channels == P(w, p).channels + [c]
    && P(w', p).spectating == host && P(w', host).spectators == P(w, host).spectators + [p]
    && OnlyWatching(w, host, p, w')
  }

  /** Of the players only what concerns the two of them differs. */
  ghost predicate OnlyWatching(w: World, host: Player, p: Player, w': World) {
    forall q <- w'.pl ::
      && (q != p ==> P(w', q).spectating == P(w, q).spectating && P(w', q).channels == P(w, q).channels)
      && (q != host ==> P(w', q).spectators == P(w, q).spectators)
      && P(w', q).priv == P(w, q).priv && P(w', q).inLobby == P(w, q).inLobby
      && P(w', q).currentMatch == P(w, q).currentMatch
  }

  lemma AddSpectatorExactly(w: World, host: Player, p: Player, created: Channel)
    ensures exists c, w1 ::
      && SpectatorsMeet(w, host, created, c, w1)
      && var w' := AddSpectator(w, host, p, created);
         if MayJoin(w1, p, c) then Watches(w1, host, p, c, w') else w' == w1
  {
    var (w1, c) := SpectatorChannel(w, host, created);
    SpectatorsAreMet(w, host, created);
    JoinChannelExactly(w1, p, c);
    var (w2, joined) := JoinChannel(w1, p, c);
    if joined {
      LinkWatches(w1, host, p, c, w2);
    }
  }

  lemma SpectatorsAreMet(w: World, host: Player, created: Channel)
    ensures var (w1, c) := SpectatorChannel(w, host, created);
      SpectatorsMeet(w, host, created, c, w1)
  {
    FoundIsMeant(w, Spec(host.id));
    match FindChannel(w.channels, Spec(host.id))
    case Some(c) => assert Means(w, Spec(host.id), c);
    case None =>
      var listed := w.(channels := w.channels + [created], ch := w.ch[created := []]);
      JoinChannelExactly(SetC(w, created, []), host, created);
      assert MayJoin(SetC(w, created, []), host, created) <==> MayJoin(listed, host, created);
  }

  lemma LinkWatches(w: World, host: Player, p: Player, c: Channel, w1: World)
    requires Joined(w, p, c, w1)
    ensures Watches(w, host, p, c, LinkSpectator(w1, host, p))
  {
    LinkFacts(w1, host, p);
    LinkOthers(w, host, p, c, w1);
  }

  lemma LinkOthers(w: World, host: Player, p: Player, c: Channel, w1: World)
    requires Joined(w, p, c, w1)
    ensures OnlyWatching(w, host, p, LinkSpectator(w1, host, p))
  {
    assert OnlyWatching(w, host, p, w1);
  }

  /** `p` no longer watches: off the host's list, and out of the channel, which the host leaves with the last. */
  ghost predicate Unwatches(w: World, host: Player, p: Player, c: Channel, w': World) {
    && Means(w, Spec(host.id), c)
    && P(w', p).spectating == null
    && P(w', host).spectators == Remove(P(w, host).spectators, p)
    && (forall q <- w'.pl :: q != p ==> P(w', q).spectating == P(w, q).spectating)
    && (forall q <- w'.pl :: q != host ==> P(w', q).spectators == P(w, q).spectators)
    && (forall d <- w'.ch :: d != c ==> C(w', d) == C(w, d))
    && var others := Remove(C(w, c), p);
       C(w', c) == if P(w', host).spectators == [] then Remove(others, host) else others
  }

  lemma RemoveSpectatorExactly(w: World, host: Player, p: Player)
    ensures p !in P(w, host).spectators ==> RemoveSpectator(w, host, p) == Outcome(w, false)
    ensures RemoveSpectator(w, host, p).ok ==> exists c :: Unwatches(w, host, p, c, RemoveSpectator(w, host, p).w)
  {
    if RemoveSpectator(w, host, p).ok {
      var w1 := UnlinkSpectator(w, host, p);
      var c := FindChannel(w.channels, Spec(host.id)).value;
      assert RemoveSpectator(w, host, p) == Leavers(w1, host, p, c);
      ChannelIsMeant(w, host, c);
      UnlinkAll(w, host, p);
      BothLeave(w1, host, p, c);
      WatchEnds(w, host, p, c, w1, Leavers(w1, host, p, c).w);
    }
  }

  lemma ChannelIsMeant(w: World, host: Player, c: Channel)
    requires FindChannel(w.channels, Spec(host.id)) == Some(c)
    ensures Means(w, Spec(host.id), c)
  {
    FoundIsMeant(w, Spec(host.id));
    assert Means(w, Spec(host.id), c);
  }

  lemma WatchEnds(w: World, host: Player, p: Player, c: Channel, w1: World, w': World)
    requires Means(w, Spec(host.id), c) && Unlinked(w, host, p, w1) && Left(w1, host, p, c, w')
    ensures Unwatches(w, host, p, c, w')
  {
  }

  ghost predicate Unlinked(w: World, host: Player, p: Player, w': World) {
    && w'.ch == w.ch && w'.channels == w.channels
    && P(w', p).spectating == null && P(w', host).spectators == Remove(P(w, host).spectators, p)
    && w.pl.Keys <= w'.pl.Keys
    && (forall q <- w'.pl :: q != p ==> P(w', q).spectating == P(w, q).spectating)
    && (forall q <- w'.pl :: q != host ==> P(w', q).spectators == P(w, q).spectators)
  }

  lemma UnlinkAll(w: World, host: Player, p: Player)
    ensures Unlinked(w, host, p, UnlinkSpectator(w, host, p))
  {
  }

  /** The spectator leaves the channel, and the host when nobody else watches. */
  function Leavers(w: World, host: Player, p: Player, c: Channel): Outcome {
    var o := LeaveChannel(w, p, c);
    if !o.ok || P(o.w, host).spectators != [] then o else LeaveChannel(o.w, host, c)
  }

  ghost predicate Left(w: World, host: Player, p: Player, c: Channel, w': World) {
    && w'.pl.Keys == w.pl.Keys
    && (forall q <- w'.pl :: P(w', q).spectating == P(w, q).spectating && P(w', q).spectators == P(w, q).spectators)
    && (forall d <- w'.ch :: d != c ==> C(w', d) == C(w, d))
    && var others := Remove(C(w, c), p);
       C(w', c) == if P(w', host).spectators == [] then Remove(others, host) else others
  }

  lemma BothLeave(w: World, host: Player, p: Player, c: Channel)
    requires Leavers(w, host, p, c).ok && p in w.pl && host in w.pl
    ensures Left(w, host, p, c, Leavers(w, host, p, c).w)
  {
    LeavesLinks(w, p, c);
    LeavesLinks(LeaveChannel(w, p, c).w, host, c);
  }

  /** Leaving a channel moves nobody else and no spectator link. */
  lemma LeavesLinks(w: World, p: Player, c: Channel)
    ensures var o := LeaveChannel(w, p, c);
      o.ok ==>
        && C(o.w, c) == Remove(C(w, c), p)
        && (forall d <- o.w.ch :: d != c ==> C(o.w, d) == C(w, d))
        && (p in w.pl ==> o.w.pl.Keys == w.pl.Keys)
        && forall q <- o.w.pl :: P(o.w, q).spectating == P(w, q).spectating && P(o.w, q).spectators == P(w, q).spectators
  {
    LeaveChannelExactly(w, p, c);
  }

  /** A request to spectate leaves the host watched so far, and then joins the new one. */
  lemma SpectateSteps(w: World, p: Player, target: int, created: Channel)
    ensures var o := Step(w, Spectate(p, target, created));
      var current := P(w, p).spectating;
      if target !in w.byId || w.byId[target] == current then o == Outcome(w, true)
      else if current == null then o == Outcome(AddSpectator(w, w.byId[target], p, created), true)
      else
        var o1 := RemoveSpectator(w, current, p);
        o == if o1.ok then Outcome(AddSpectator(o1.w, w.byId[target], p, created), true) else o1
    ensures Step(w, StopSpectating(p)) ==
      if P(w, p).spectating == null then Outcome(w, true) else RemoveSpectator(w, P(w, p).spectating, p)
  {
  }

  // ---------------------------------------------------------------- players

  /** A login lists a player in no match and no channel, and finds them under their id from then on. */
  lemma LoginLists(w: World, p: Player, priv: Privileges)
    ensures var o := Step(w, Login(p, priv));
      && o.ok
      && o.w == w.(players := w.players + [p], byId := w.byId[p.id := p],
                   pl := w.pl[p := PlayerV(priv, false, [], [], null, null)])
  {
  }

  lemma ProfileSteps(w: World, p: Player, priv: Privileges, inLobby: bool)
    ensures Step(w, SetPrivileges(p, priv)) == Outcome(w.(pl := w.pl[p := P(w, p).(priv := priv)]), true)
    ensures Step(w, SetInLobby(p, inLobby)) == Outcome(w.(pl := w.pl[p := P(w, p).(inLobby := inLobby)]), true)
  {
  }

  predicate SameLists(w: World, w': World) {
    w'.players == w.players && w'.byId == w.byId
  }

  lemma StopLists(w: World, p: Player)
    ensures var o := StopSpectatingAny(w, p);
      && SameLists(w, o.w) && P(o.w, p).currentMatch == P(w, p).currentMatch
      && (o.ok ==> P(o.w, p).spectating == null)
  {
    var host := P(w, p).spectating;
    if host != null && p in P(w, host).spectators {
      var w1 := UnlinkSpectator(w, host, p);
      UnlinkFacts(w, host, p);
      var found := FindChannel(w1.channels, Spec(host.id));
      if found.Some? {
        LeaveLists(w1, p, found.value);
        LeaveLists(LeaveChannel(w1, p, found.value).w, host, found.value);
      }
    }
  }

  lemma LeaveLists(w: World, p: Player, c: Channel)
    ensures var w' := LeaveChannel(w, p, c).w;
      && SameLists(w, w')
      && forall q: Player :: P(w', q).currentMatch == P(w, q).currentMatch && P(w', q).spectating == P(w, q).spectating
  {
    LeaveChannelExactly(w, p, c);
  }

  lemma {:induction false} LoopLists(w: World, p: Player)
    ensures var o := LeaveChannels(w, p);
      && SameLists(w, o.w) && P(o.w, p).currentMatch == P(w, p).currentMatch && P(o.w, p).spectating == P(w, p).spectating
      && (o.ok ==> P(o.w, p).channels == [])
    decreases |P(w, p).channels|
  {
    if P(w, p).channels != [] {
      var c := P(w, p).channels[0];
      LeaveLists(w, p, c);
      var o := LeaveChannel(w, p, c);
      if o.ok && |P(o.w, p).channels| < |P(w, p).channels| {
        LoopLists(o.w, p);
      }
    }
  }
}
