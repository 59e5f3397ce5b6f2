/** Channel membership and spectator links: what the operations on them keep. */
module ChannelSafety {
  import opened Wrappers
  import opened Multiplayer
  import opened Sessions

  predicate Distinct<T(==)>(s: seq<T>) {
    s == [] || (s[0] !in s[1..] && Distinct(s[1..]))
  }

  // ---------------------------------------------------------------- the invariant

  /** Players and channels name each other, once each. */
  predicate Symmetric(w: World) {
    && (forall c <- w.ch :: Distinct(w.ch[c]) && forall p <- w.ch[c] :: c in P(w, p).channels)
    && (forall p <- w.pl :: Distinct(w.pl[p].channels) && forall c <- w.pl[p].channels :: p in C(w, c))
  }

  /** An instanced channel with members is listed; no channel is listed twice, nor two spectator channels
      of one user. */
  predicate ListsOccupied(w: World) {
    && Distinct(w.channels)
    && (forall c <- w.ch :: c.Instance() && w.ch[c] != [] ==> c in w.channels)
    && (forall c, d :: c in w.channels && d in w.channels && c.name.Spec? && c.name == d.name ==> c == d)
  }

  /** Spectators and hosts name each other, once each. */
  predicate Linked(w: World) {
    && (forall p <- w.pl :: w.pl[p].spectating != null ==> p in P(w, w.pl[p].spectating).spectators)
    && (forall h <- w.pl :: Distinct(w.pl[h].spectators) && forall p <- w.pl[h].spectators :: P(w, p).spectating == h)
  }

  /** The channel of `host`'s spectators. */
  predicate InSpectatorChannel(w: World, p: Player, host: Player) {
    exists c <- w.channels :: c.name == Spec(host.id) && p in C(w, c)
  }

  /** Every spectator is in the host's listed channel, and no spectator is another session of the host. */
  predicate Watching(w: World) {
    forall p <- w.pl :: w.pl[p].spectating != null ==>
      && InSpectatorChannel(w, p, w.pl[p].spectating)
      && (p != w.pl[p].spectating ==> p.id != w.pl[p].spectating.id)
  }

  predicate Channelled(w: World) {
    Symmetric(w) && ListsOccupied(w) && Linked(w) && Watching(w)
  }

  // ---------------------------------------------------------------- what a change leaves alone

  predicate SameLinks(w: World, w': World) {
    && w.pl.Keys <= w'.pl.Keys
    && forall q <- w'.pl :: w'.pl[q].spectating == P(w, q).spectating && w'.pl[q].spectators == P(w, q).spectators
  }

  /** Nobody has left a channel. */
  predicate Grows(w: World, w': World) {
    forall d <- w.ch :: d in w'.ch && forall q <- w.ch[d] :: q in w'.ch[d]
  }

  /** Nobody but `p` has left a channel, and only `c`. */
  predicate OnlyLeaves(w: World, w': World, p: Player, c: Channel) {
    forall d <- w.ch :: d in w'.ch && forall q <- w.ch[d] :: q in w'.ch[d] || (d == c && q == p)
  }

  /** Nobody has left a channel other than a spectators' one. */
  predicate GrowsBesideSpectators(w: World, w': World) {
    forall d <- w.ch :: d in w'.ch && (!d.name.Spec? ==> forall q <- w.ch[d] :: q in w'.ch[d])
  }

  /** `q` watches from channel `d`. */
  predicate WatchesFrom(w: World, q: Player, d: Channel) {
    P(w, q).spectating != null && d.name == Spec(P(w, q).spectating.id)
  }

  /** Whoever watches from a listed channel is still in it, and it is still listed. */
  predicate KeepsWatchers(w: World, w': World) {
    forall d <- w.channels :: forall q <- C(w, d) :: WatchesFrom(w, q, d) ==> d in w'.channels && q in C(w', d)
  }

  lemma WatchingFollows(w: World, w': World)
    requires Watching(w) && SameLinks(w, w') && KeepsWatchers(w, w')
    ensures Watching(w')
  {
    forall q | q in w'.pl && w'.pl[q].spectating != null
      ensures InSpectatorChannel(w', q, w'.pl[q].spectating)
      ensures q != w'.pl[q].spectating ==> q.id != w'.pl[q].spectating.id
    {
      assert q in w.pl && w.pl[q].spectating == w'.pl[q].spectating;
      var d :| d in w.channels && d.name == Spec(w.pl[q].spectating.id) && q in C(w, d);
      assert WatchesFrom(w, q, d);
    }
  }

  lemma LinkedFollows(w: World, w': World)
    requires Linked(w) && SameLinks(w, w')
    ensures Linked(w')
  {
    forall q | q in w'.pl && w'.pl[q].spectating != null
      ensures q in P(w', w'.pl[q].spectating).spectators
    {
      assert q in w.pl && q in P(w, w.pl[q].spectating).spectators;
      assert w.pl[q].spectating in w.pl;
    }
    forall h, q | h in w'.pl && q in w'.pl[h].spectators
      ensures P(w', q).spectating == h
    {
      assert h in w.pl && q in w.pl[h].spectators && P(w, q).spectating == h;
      assert q in w.pl;
    }
  }

  // ---------------------------------------------------------------- list removal

  lemma {:induction false} RemoveOnce<T>(s: seq<T>, x: T)
    requires Distinct(s)
    ensures Distinct(Remove(s, x)) && x !in Remove(s, x)
    ensures forall y :: y in Remove(s, x) <==> y in s && y != x
  {
    if s != [] {
      RemoveOnce(s[1..], x);
      assert s == [s[0]] + s[1..];
      if s[0] != x {
        assert Remove(s, x) == [s[0]] + Remove(s[1..], x);
        assert Remove(s, x)[1..] == Remove(s[1..], x);
      }
    }
  }

  lemma {:induction false} AppendDistinct<T>(s: seq<T>, x: T)
    requires Distinct(s) && x !in s
    ensures Distinct(s + [x])
  {
    if s != [] {
      AppendDistinct(s[1..], x);
      assert (s + [x])[1..] == s[1..] + [x];
    }
  }

  // ---------------------------------------------------------------- joining

  /** Membership only grows. */
  lemma JoinChannelKeeps(w: World, p: Player, c: Channel)
    requires Channelled(w) && (c.Instance() ==> c in w.channels)
    ensures var (w', joined) := JoinChannel(w, p, c);
      && Channelled(w') && w'.channels == w.channels && Grows(w, w') && SameLinks(w, w')
      && (joined ==> p in C(w', c))
  {
    var w' := JoinChannel(w, p, c).0;
    JoinFrame(w, p, c);
    JoinKeepsSymmetry(w, p, c);
    LinkedFollows(w, w');
    assert KeepsWatchers(w, w');
    WatchingFollows(w, w');
  }

  lemma JoinFrame(w: World, p: Player, c: Channel)
    ensures var (w', joined) := JoinChannel(w, p, c);
      && w'.channels == w.channels && Grows(w, w') && SameLinks(w, w') && (joined ==> p in C(w', c))
      && (!joined ==> w' == w) && (ListsOccupied(w) && (c.Instance() ==> c in w.channels) ==> ListsOccupied(w'))
  {
  }

  /** The two lists that joining lengthens. */
  lemma JoinShape(w: World, p: Player, c: Channel)
    requires JoinChannel(w, p, c).1
    ensures var w' := JoinChannel(w, p, c).0;
      && p !in C(w, c)
      && w'.ch == w.ch[c := C(w, c) + [p]]
      && w'.pl == w.pl[p := P(w, p).(channels := P(w, p).channels + [c])]
  {
  }

  lemma JoinKeepsSymmetry(w: World, p: Player, c: Channel)
    requires Symmetric(w)
    ensures Symmetric(JoinChannel(w, p, c).0)
  {
    if JoinChannel(w, p, c).1 {
      JoinShape(w, p, c);
      AppendDistinct(C(w, c), p);
      assert c !in P(w, p).channels;
      AppendDistinct(P(w, p).channels, c);
      BothLengthened(w, JoinChannel(w, p, c).0, p, c);
    }
  }

  lemma BothLengthened(w: World, w': World, p: Player, c: Channel)
    requires Symmetric(w)
    requires w'.ch == w.ch[c := C(w, c) + [p]]
    requires w'.pl == w.pl[p := P(w, p).(channels := P(w, p).channels + [c])]
    requires Distinct(C(w, c) + [p]) && Distinct(P(w, p).channels + [c])
    ensures Symmetric(w')
  {
  }

  // ---------------------------------------------------------------- leaving

  /** Leaving `c` does not take a spectator out of the channel it watches from. */
  predicate MayLeave(w: World, p: Player, c: Channel) {
    P(w, p).spectating != null ==> c.name != Spec(P(w, p).spectating.id)
  }

  /** Leaving returns, and takes exactly one player out of exactly one channel. */
  lemma LeaveChannelKeeps(w: World, p: Player, c: Channel)
    requires Channelled(w) && MayLeave(w, p, c)
    ensures var o := LeaveChannel(w, p, c);
      && o.ok && Channelled(o.w) && SameLinks(w, o.w) && OnlyLeaves(w, o.w, p, c) && LeavesList(w, o.w, c)
      && (p in C(w, c) ==> P(o.w, p).channels == Remove(P(w, p).channels, c))
  {
    var w' := LeaveChannel(w, p, c).w;
    LeaveReturns(w, p, c);
    LeaveFrame(w, p, c);
    LeaveKeepsSymmetry(w, p, c);
    LeaveKeepsListing(w, p, c);
    LinkedFollows(w, w');
    forall d, q | d in w.channels && q in C(w, d) && WatchesFrom(w, q, d)
      ensures d in w'.channels && q in C(w', d)
    {
      assert d in w.ch && (q in w'.ch[d] || (d == c && q == p));
      assert !(d == c && q == p);
    }
    WatchingFollows(w, w');
  }

  /** Only `c` may leave the list, and only empty. */
  predicate LeavesList(w: World, w': World, c: Channel) {
    && (forall d <- w'.channels :: d in w.channels)
    && (forall d <- w.channels :: d in w'.channels || (d == c && C(w', d) == []))
  }

  lemma LeaveReturns(w: World, p: Player, c: Channel)
    requires Symmetric(w) && ListsOccupied(w)
    ensures LeaveChannel(w, p, c).ok
  {
  }

  lemma LeaveFrame(w: World, p: Player, c: Channel)
    requires Symmetric(w) && LeaveChannel(w, p, c).ok
    ensures var w' := LeaveChannel(w, p, c).w;
      && SameLinks(w, w') && OnlyLeaves(w, w', p, c) && LeavesList(w, w', c)
      && (p in C(w, c) ==> P(w', p).channels == Remove(P(w, p).channels, c))
  {
    if p in C(w, c) {
      RemoveOnce(C(w, c), p);
      LeaveShape(w, p, c);
    }
  }

  /** The two lists that leaving shortens. */
  lemma LeaveShape(w: World, p: Player, c: Channel)
    requires LeaveChannel(w, p, c).ok && p in C(w, c)
    ensures var w' := LeaveChannel(w, p, c).w;
      && w'.ch == w.ch[c := Remove(C(w, c), p)]
      && w'.pl == w.pl[p := P(w, p).(channels := Remove(P(w, p).channels, c))]
      && w'.channels == (if Remove(C(w, c), p) == [] && c.Instance() then Remove(w.channels, c) else w.channels)
  {
  }

  lemma LeaveKeepsSymmetry(w: World, p: Player, c: Channel)
    requires Symmetric(w) && LeaveChannel(w, p, c).ok
    ensures Symmetric(LeaveChannel(w, p, c).w)
  {
    if p in C(w, c) {
      RemoveOnce(C(w, c), p);
      RemoveOnce(P(w, p).channels, c);
      LeaveShape(w, p, c);
    }
  }

  lemma LeaveKeepsListing(w: World, p: Player, c: Channel)
    requires ListsOccupied(w) && LeaveChannel(w, p, c).ok
    ensures ListsOccupied(LeaveChannel(w, p, c).w)
  {
    RemoveOnce(w.channels, c);
    if p in C(w, c) {
      LeaveShape(w, p, c);
    }
  }

  /** The loop of a logout ends, with no channel left and nobody else moved. */
  lemma {:induction false} LeaveChannelsKeeps(w: World, p: Player)
    requires Channelled(w) && P(w, p).spectating == null
    ensures var o := LeaveChannels(w, p);
      && o.ok && Channelled(o.w) && P(o.w, p).channels == []
      && (forall d <- o.w.ch :: forall q <- C(w, d) :: q in C(o.w, d) || q == p)
      && (forall q <- o.w.pl :: P(o.w, q).spectating == P(w, q).spectating && P(o.w, q).spectators == P(w, q).spectators)
    decreases |P(w, p).channels|
  {
    if P(w, p).channels != [] {
      var c := P(w, p).channels[0];
      assert p in w.pl && c in w.pl[p].channels;
      LeaveChannelKeeps(w, p, c);
      var o := LeaveChannel(w, p, c);
      LeaveChannelsKeeps(o.w, p);
    }
  }

  // ---------------------------------------------------------------- spectators

  predicate NewSpectatorChannel(w: World, host: Player, c: Channel) {
    c !in w.ch && c !in w.channels && c.name == Spec(host.id)
  }

  lemma JoinIgnoresList(w: World, p: Player, c: Channel, channels: seq<Channel>)
    ensures JoinChannel(w.(channels := channels), p, c).0 == JoinChannel(w, p, c).0.(channels := channels)
  {
  }

  /** `c` is a new channel for the host's spectators, if there is need for one. */
  predicate ChannelFor(w: World, host: Player, c: Channel) {
    FindChannel(w.channels, Spec(host.id)).None? ==> NewSpectatorChannel(w, host, c)
  }

  lemma SpectatorChannelKeeps(w: World, host: Player, created: Channel)
    requires Channelled(w) && ChannelFor(w, host, created)
    ensures var (w', c) := SpectatorChannel(w, host, created);
      && Channelled(w') && c in w'.channels && c.name == Spec(host.id)
      && Grows(w, w') && SameLinks(w, w') && forall d <- w.channels :: d in w'.channels
  {
    if FindChannel(w.channels, Spec(host.id)).None? {
      MadeChannelKeeps(w, host, created);
      JoinIgnoresList(SetC(w, created, []), host, created, w.channels + [created]);
    }
  }

  lemma MadeChannelKeeps(w: World, host: Player, c: Channel)
    requires Channelled(w) && NewSpectatorChannel(w, host, c) && FindChannel(w.channels, c.name).None?
    ensures var w' := JoinChannel(SetC(w, c, []).(channels := w.channels + [c]), host, c).0;
      && Channelled(w') && Grows(w, w') && SameLinks(w, w') && w'.channels == w.channels + [c]
  {
    var listed := SetC(w, c, []).(channels := w.channels + [c]);
    ListedNewChannel(w, c);
    JoinChannelKeeps(listed, host, c);
  }

  /** Listing an empty channel before its first member joins comes to the same as after. */
  lemma ListedNewChannel(w: World, c: Channel)
    requires Channelled(w) && c !in w.ch && c !in w.channels
    requires c.name.Spec? ==> FindChannel(w.channels, c.name).None?
    ensures Channelled(SetC(w, c, []).(channels := w.channels + [c]))
  {
    var w' := SetC(w, c, []).(channels := w.channels + [c]);
    assert ListsOccupied(w') by {
      AppendDistinct(w.channels, c);
    }
    assert Symmetric(w');
    assert Linked(w') by {
      LinkedFollows(w, w');
    }
    assert Watching(w') by {
      WatchingFollows(w, w');
    }
  }

  /** Only spectator links differ. */
  predicate OnlyLinks(w: World, w': World) {
    && w'.ch == w.ch && w'.channels == w.channels && w.pl.Keys <= w'.pl.Keys
    && forall q <- w'.pl :: w'.pl[q].channels == P(w, q).channels
  }

  lemma MembershipFollows(w: World, w': World)
    requires Symmetric(w) && ListsOccupied(w) && OnlyLinks(w, w')
    ensures Symmetric(w') && ListsOccupied(w')
  {
    forall c, q | c in w'.ch && q in w'.ch[c]
      ensures c in P(w', q).channels
    {
      assert c in P(w, q).channels;
      assert q in w.pl;
    }
    forall q | q in w'.pl
      ensures Distinct(w'.pl[q].channels) && forall c <- w'.pl[q].channels :: q in C(w', c)
    {
      if q in w.pl {
        assert Distinct(w.pl[q].channels);
      }
    }
  }

  /** What linking changes. */
  lemma LinkFacts(w: World, host: Player, p: Player)
    ensures var w' := LinkSpectator(w, host, p);
      && OnlyLinks(w, w') && host in w'.pl && p in w'.pl
      && P(w', p).spectating == host && P(w', host).spectators == P(w, host).spectators + [p]
      && (forall q <- w'.pl :: q != p ==> w'.pl[q].spectating == P(w, q).spectating)
      && (forall q <- w'.pl :: q != host ==> w'.pl[q].spectators == P(w, q).spectators)
  {
  }

  lemma UnlinkFacts(w: World, host: Player, p: Player)
    ensures var w' := UnlinkSpectator(w, host, p);
      && OnlyLinks(w, w') && host in w'.pl && p in w'.pl
      && P(w', p).spectating == null && P(w', host).spectators == Remove(P(w, host).spectators, p)
      && (forall q <- w'.pl :: q != p ==> w'.pl[q].spectating == P(w, q).spectating)
      && (forall q <- w'.pl :: q != host ==> w'.pl[q].spectators == P(w, q).spectators)
  {
  }

  lemma LinkKeepsLinks(w: World, host: Player, p: Player)
    requires Linked(w) && P(w, p).spectating == null
    ensures Linked(LinkSpectator(w, host, p))
  {
    var w' := LinkSpectator(w, host, p);
    LinkFacts(w, host, p);
    assert p !in P(w, host).spectators by {
      assert host in w.pl ==> forall q <- w.pl[host].spectators :: P(w, q).spectating == host;
    }
    assert Distinct(P(w, host).spectators);
    AppendDistinct(P(w, host).spectators, p);
    LinkedElsewhere(w, w', host, p);
    forall q | q in w'.pl[host].spectators
      ensures P(w', q).spectating == host
    {
      if q != p {
        assert P(w, q).spectating == host && q in w.pl;
      }
    }
  }

  lemma UnlinkKeepsLinks(w: World, host: Player, p: Player)
    requires Linked(w) && P(w, p).spectating == host
    ensures Linked(UnlinkSpectator(w, host, p))
  {
    var w' := UnlinkSpectator(w, host, p);
    UnlinkFacts(w, host, p);
    assert p in w.pl && host in w.pl;
    RemoveOnce(P(w, host).spectators, p);
    LinkedElsewhere(w, w', host, p);
    forall q | q in w'.pl[host].spectators
      ensures P(w', q).spectating == host
    {
      assert q in w.pl[host].spectators && q != p;
      assert P(w, q).spectating == host && q in w.pl;
    }
  }

  /** Links that do not involve both `p` and `host` carry over. */
  lemma LinkedElsewhere(w: World, w': World, host: Player, p: Player)
    requires Linked(w) && w.pl.Keys <= w'.pl.Keys
    requires P(w, p).spectating == null || P(w, p).spectating == host
    requires forall q <- w'.pl :: q != p ==> w'.pl[q].spectating == P(w, q).spectating
    requires forall q <- w'.pl :: q != host ==> w'.pl[q].spectators == P(w, q).spectators
    requires host in w'.pl && forall q <- P(w, host).spectators :: q == p || q in w'.pl[host].spectators
    ensures forall q <- w'.pl :: q != p && w'.pl[q].spectating != null ==> q in P(w', w'.pl[q].spectating).spectators
    ensures forall h <- w'.pl :: h != host ==>
      Distinct(w'.pl[h].spectators) && forall q <- w'.pl[h].spectators :: P(w', q).spectating == h
  {
    forall q | q in w'.pl && q != p && w'.pl[q].spectating != null
      ensures q in P(w', w'.pl[q].spectating).spectators
    {
      var h := w'.pl[q].spectating;
      assert q in w.pl && q in P(w, h).spectators && h in w.pl;
    }
    forall h, q | h in w'.pl && h != host && q in w'.pl[h].spectators
      ensures P(w', q).spectating == h
    {
      assert h in w.pl && P(w, q).spectating == h && q in w.pl && q != p;
    }
    forall h | h in w'.pl && h != host
      ensures Distinct(w'.pl[h].spectators)
    {
      if h in w.pl {
        assert Distinct(w.pl[h].spectators);
      }
    }
  }

  lemma LinkKeeps(w: World, host: Player, p: Player, c: Channel)
    requires Channelled(w) && P(w, p).spectating == null && (p == host || p.id != host.id)
    requires c in w.channels && c.name == Spec(host.id) && p in C(w, c)
    ensures var w' := LinkSpectator(w, host, p); Channelled(w') && OnlyLinks(w, w')
  {
    var w' := LinkSpectator(w, host, p);
    LinkFacts(w, host, p);
    MembershipFollows(w, w');
    LinkKeepsLinks(w, host, p);
    forall q | q in w'.pl && w'.pl[q].spectating != null
      ensures InSpectatorChannel(w', q, w'.pl[q].spectating)
      ensures q != w'.pl[q].spectating ==> q.id != w'.pl[q].spectating.id
    {
      if q == p {
        assert c in w'.channels && p in C(w', c);
      } else {
        StillWatches(w, w', q);
      }
    }
  }

  lemma StillWatches(w: World, w': World, q: Player)
    requires Watching(w) && w'.ch == w.ch && w'.channels == w.channels
    requires P(w, q).spectating != null
    ensures InSpectatorChannel(w', q, P(w, q).spectating)
    ensures q != P(w, q).spectating ==> q.id != P(w, q).spectating.id
  {
    assert q in w.pl;
    var d :| d in w.channels && d.name == Spec(P(w, q).spectating.id) && q in C(w, d);
    assert d in w'.channels && q in C(w', d);
  }

  lemma UnlinkKeeps(w: World, host: Player, p: Player)
    requires Channelled(w) && P(w, p).spectating == host
    ensures var w' := UnlinkSpectator(w, host, p); Channelled(w') && OnlyLinks(w, w')
  {
    var w' := UnlinkSpectator(w, host, p);
    UnlinkFacts(w, host, p);
    MembershipFollows(w, w');
    UnlinkKeepsLinks(w, host, p);
    forall q | q in w'.pl && w'.pl[q].spectating != null
      ensures InSpectatorChannel(w', q, w'.pl[q].spectating)
      ensures q != w'.pl[q].spectating ==> q.id != w'.pl[q].spectating.id
    {
      StillWatches(w, w', q);
    }
  }

  lemma AddSpectatorKeeps(w: World, host: Player, p: Player, created: Channel)
    requires Channelled(w) && ChannelFor(w, host, created)
    requires P(w, p).spectating == null && (p == host || p.id != host.id)
    ensures var w' := AddSpectator(w, host, p, created); Channelled(w') && Grows(w, w')
  {
    var (w1, c) := SpectatorChannel(w, host, created);
    SpectatorChannelKeeps(w, host, created);
    var (w2, joined) := JoinChannel(w1, p, c);
    JoinChannelKeeps(w1, p, c);
    if joined {
      assert P(w2, p).spectating == null by {
        JoinFrame(w1, p, c);
      }
      LinkKeeps(w2, host, p, c);
    }
  }

  /** Neither the removal from the host's list nor the assertion on the channel can fail. */
  lemma RemoveSpectatorKeeps(w: World, host: Player, p: Player)
    requires Channelled(w) && P(w, p).spectating == host
    ensures var o := RemoveSpectator(w, host, p);
      && o.ok && Channelled(o.w) && P(o.w, p).spectating == null && GrowsBesideSpectators(w, o.w)
      && o.w.ch.Keys == w.ch.Keys && forall d <- o.w.channels :: d in w.channels
  {
    assert p in w.pl && p in P(w, host).spectators && InSpectatorChannel(w, p, host);
    var w1 := UnlinkSpectator(w, host, p);
    UnlinkKeeps(w, host, p);
    UnlinkFacts(w, host, p);
    var c := FindChannel(w1.channels, Spec(host.id)).value;
    SpectatorLeaves(w1, host, p, c);
  }

  lemma SpectatorLeaves(w: World, host: Player, p: Player, c: Channel)
    requires Channelled(w) && P(w, p).spectating == null && c.name == Spec(host.id) && p in w.pl && host in w.pl
    ensures var o1 := LeaveChannel(w, p, c);
      var o := if !o1.ok || P(o1.w, host).spectators != [] then o1 else LeaveChannel(o1.w, host, c);
      && o.ok && Channelled(o.w) && P(o.w, p).spectating == null && GrowsBesideSpectators(w, o.w)
      && o.w.ch.Keys == w.ch.Keys && forall d <- o.w.channels :: d in w.channels
  {
    LeavesSpectators(w, p, c);
    var o := LeaveChannel(w, p, c);
    if P(o.w, host).spectators == [] {
      HostMayLeave(o.w, host, c);
      LeavesSpectators(o.w, host, c);
    }
  }

  lemma LeavesSpectators(w: World, p: Player, c: Channel)
    requires Channelled(w) && MayLeave(w, p, c) && c.name.Spec? && p in w.pl
    ensures var o := LeaveChannel(w, p, c);
      && o.ok && Channelled(o.w) && SameLinks(w, o.w) && GrowsBesideSpectators(w, o.w)
      && o.w.ch.Keys == w.ch.Keys && o.w.pl.Keys == w.pl.Keys && forall d <- o.w.channels :: d in w.channels
  {
    LeaveChannelKeeps(w, p, c);
    LeaveKeys(w, p, c);
  }

  lemma LeaveKeys(w: World, p: Player, c: Channel)
    ensures LeaveChannel(w, p, c).w.ch.Keys == w.ch.Keys
    ensures p in w.pl ==> LeaveChannel(w, p, c).w.pl.Keys == w.pl.Keys
  {
  }

  /** A host nobody watches does not watch from the own channel. */
  lemma HostMayLeave(w: World, host: Player, c: Channel)
    requires Channelled(w) && P(w, host).spectators == [] && c.name == Spec(host.id)
    ensures MayLeave(w, host, c)
  {
    var current := P(w, host).spectating;
    if current != null {
      assert host in w.pl && host in P(w, current).spectators;
    }
  }

  lemma StartSpectatingKeeps(w: World, p: Player, target: int, created: Channel)
    requires Channelled(w)
    requires target in w.byId ==> p == w.byId[target] || p.id != w.byId[target].id
    requires target in w.byId ==> ChannelFor(StopSpectatingAny(w, p).w, w.byId[target], created)
    ensures var o := StartSpectating(w, p, target, created);
      o.ok && Channelled(o.w) && GrowsBesideSpectators(w, o.w)
  {
    if target in w.byId && P(w, p).spectating != w.byId[target] {
      var host, current := w.byId[target], P(w, p).spectating;
      if current == null {
        AddSpectatorKeeps(w, host, p, created);
      } else {
        RemoveSpectatorKeeps(w, current, p);
        var o := RemoveSpectator(w, current, p);
        AddSpectatorKeeps(o.w, host, p, created);
      }
    }
  }

  /** A channel that is new before another host is left is new after. */
  lemma StillNewAfterStopping(w: World, p: Player, host: Player, c: Channel)
    requires Channelled(w) && NewSpectatorChannel(w, host, c)
    ensures ChannelFor(StopSpectatingAny(w, p).w, host, c)
  {
    if P(w, p).spectating != null {
      RemoveSpectatorKeeps(w, P(w, p).spectating, p);
    }
  }
}
