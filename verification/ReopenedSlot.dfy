/** A run, from the start of the server, at whose end a player cannot leave their match: their slot was
    locked under them, unlocked again, and taken by somebody else. */
module ReopenedSlot {
  import opened Wrappers
  import opened Multiplayer
  import opened MatchSafety
  import opened Sessions
  import opened SessionRuns
  import SeatSafety

  const EVERYONE: Privileges := {UNRESTRICTED}

  const PLAIN: Creation := Creation({}, false, HeadToHead)

  /** Online, and nothing else. */
  predicate Idle(w: World, x: Player) {
    x in w.pl && P(w, x) == NOBODY.(priv := EVERYONE)
  }

  /** `m` is match 0 under host `h`, in whose slots sit the given players. */
  predicate Table(w: World, m: Match, h: Player, slots: seq<SlotV>) {
    && w.byId.Keys >= {h.id} && w.byId[h.id] == h && w.matches != [] && w.matches[0] == m && m in w.ma
    && w.ma[m].slots == slots && w.ma[m].hostId == h.id && w.ma[m].tourneyClients == {} && w.ma[m].teamType == HeadToHead
    && m.chat.name.Multi? && m.chat.readPriv == EVERYONE
  }

  function Taken(x: Player, status: SlotStatus): SlotV {
    EMPTY_SLOT.(player := x, status := status)
  }

  /** Two slots taken, the rest as new. */
  function TwoTaken(a: SlotV, b: SlotV): (r: seq<SlotV>)
    ensures |r| == SLOTS
  {
    seq(SLOTS, i => if i == 0 then a else if i == 1 then b else EMPTY_SLOT)
  }

  // ---------------------------------------------------------------- single steps

  /** An idle player takes the slot that is free. */
  lemma Sits(w: World, x: Player, m: Match, i: nat)
    requires Idle(w, x) && m.chat.name.Multi? && m.chat.readPriv == EVERYONE && x !in C(w, m.chat)
    requires SeatFor(w, x, m, true) == (Some(i), true)
    ensures var w1 := JoinChannel(w, x, m.chat).0;
      && JoinMatch(w, x, m, true).w == SatDown(w1, x, m, i).w && SeatSafety.OnlyChannels(w, w1)
      && P(w1, x).currentMatch == null
  {
    assert UNRESTRICTED in P(w, x).priv * m.chat.readPriv;
    var w1 := JoinChannel(w, x, m.chat).0;
    SeatSafety.JoinChannelOnly(w, x, m.chat);
    assert P(w1, x).channels == [m.chat];
  }

  /** The first of the free slots. */
  lemma SecondIsFree(v: MatchV, a: SlotV, b: SlotV)
    requires v.slots == TwoTaken(a, b) && !a.status.Open? && b.status.Open?
    ensures GetFree(v) == Some(1)
  {
    assert !v.slots[0].status.Open? && v.slots[1].status.Open?;
  }

  lemma SitsSecond(w: World, m: Match, h: Player, x: Player, a: SlotV, b: SlotV)
    requires Table(w, m, h, TwoTaken(a, b)) && !a.status.Open? && b.status.Open?
    requires Idle(w, x) && x.id != h.id && x !in C(w, m.chat)
    ensures var w1, w' := JoinChannel(w, x, m.chat).0, JoinListed(w, x, 0, false, true).w;
      && w' == SatDown(w1, x, m, 1).w && SeatSafety.OnlyChannels(w, w1) && P(w1, x).currentMatch == null
      && Table(w', m, h, TwoTaken(a, b.(player := x, status := NotReady)))
      && P(w', x).currentMatch == m && (forall y <- w.pl :: y in w'.pl && (y != x ==> P(w', y) == P(w, y)))
      && C(w', m.chat) == C(w, m.chat) + [x]
  {
    SecondIsFree(M(w, m), a, b);
    Sits(w, x, m, 1);
    var w' := JoinListed(w, x, 0, false, true).w;
    assert w'.ma[m].slots == TwoTaken(a, b.(player := x, status := NotReady));
  }

  /** The host locks or unlocks the second slot. */
  lemma LocksSecond(w: World, m: Match, h: Player, a: SlotV, b: SlotV)
    requires Table(w, m, h, TwoTaken(a, b)) && P(w, h).currentMatch == m && b.player != h
    ensures var w' := ActInMatch(w, h, false, Lock(1)).w;
      && Table(w', m, h, TwoTaken(a, b.(status := if b.status.Locked? then Open else Locked)))
      && w'.pl == w.pl && w'.ch == w.ch
  {
    var w' := ActInMatch(w, h, false, Lock(1)).w;
    assert w'.ma[m].slots == TwoTaken(a, b.(status := if b.status.Locked? then Open else Locked));
  }

  /** The host creates the match, and sits in its first slot. */
  lemma CreatesTable(w: World, m: Match, h: Player)
    requires Idle(w, h) && w.byId.Keys >= {h.id} && w.byId[h.id] == h && w.matches != [] && w.matches[0] == null
    requires NewChat(w, m)
    ensures var w' := CreateMatch(w, h, m, false, PLAIN).w;
      && Table(w', m, h, TwoTaken(Taken(h, NotReady), EMPTY_SLOT)) && P(w', h).currentMatch == m
      && (forall y <- w.pl :: y in w'.pl && (y != h ==> P(w', y) == P(w, y))) && C(w', m.chat) == [h]
  {
    var r := Registered(w, h, m, PLAIN);
    assert FreeId(w.matches) == Some(0);
    Sits(r, h, m, 0);
    var w' := CreateMatch(w, h, m, false, PLAIN).w;
    assert w'.ma[m].slots == TwoTaken(Taken(h, NotReady), EMPTY_SLOT);
  }

  // ---------------------------------------------------------------- the run

  lemma {:induction false} AfterOneMore(w: World, run: seq<Event>, e: Event)
    ensures SeatSafety.After(w, run + [e]) == Step(SeatSafety.After(w, run), e).w
    ensures SeatSafety.FreshRun(w, run) && SeatSafety.Fresh(SeatSafety.After(w, run), e) ==> SeatSafety.FreshRun(w, run + [e])
    decreases |run|
  {
    if run == [] {
      assert run + [e] == [e] && [e][1..] == [];
    } else {
      AfterOneMore(Step(w, run[0]).w, run[1..], e);
      assert (run + [e])[1..] == run[1..] + [e];
    }
  }

  /** `run` can happen from `w`, and leads to `w'`. */
  predicate Leads(w: World, run: seq<Event>, w': World) {
    SeatSafety.FreshRun(w, run) && SeatSafety.After(w, run) == w'
  }

  lemma OneMore(w: World, run: seq<Event>, w1: World, e: Event)
    requires Leads(w, run, w1) && SeatSafety.Fresh(w1, e)
    ensures Leads(w, run + [e], Step(w1, e).w)
  {
    AfterOneMore(w, run, e);
  }

  /** Three players log in. */
  function Arrivals(h: Player, q: Player, p: Player): seq<Event> {
    [] + [Login(h, EVERYONE)] + [Login(q, EVERYONE)] + [Login(p, EVERYONE)]
  }

  /** Then `h` creates a match, and `q` joins it. */
  function Gathering(h: Player, q: Player, p: Player, m: Match): seq<Event> {
    Arrivals(h, q, p) + [Create(h, m, false, PLAIN)] + [Join(q, 0, false, true)]
  }

  /** Then `h` locks `q`'s slot and locks it again, and `p` joins. */
  function Evening(h: Player, q: Player, p: Player, m: Match): seq<Event> {
    Gathering(h, q, p, m) + [InMatch(h, false, Lock(1))] + [InMatch(h, false, Lock(1))] + [Join(p, 0, false, true)]
  }

  predicate ThreePeople(h: Player, q: Player, p: Player) {
    h != q && h != p && q != p && h.id != q.id && h.id != p.id && q.id != p.id
  }

  lemma ThreeArrive(w: World, h: Player, q: Player, p: Player) returns (w': World)
    requires Initial(w) && ThreePeople(h, q, p)
    ensures Leads(w, Arrivals(h, q, p), w')
    ensures Idle(w', h) && Idle(w', q) && Idle(w', p) && w'.byId.Keys >= {h.id} && w'.byId[h.id] == h
    ensures w'.matches == w.matches && w'.ch == w.ch && w'.channels == w.channels && w'.ma == map[]
  {
    var w1 := LoggedIn(w, h, EVERYONE);
    var w2 := LoggedIn(w1, q, EVERYONE);
    w' := LoggedIn(w2, p, EVERYONE);
    OneMore(w, [], w, Login(h, EVERYONE));
    OneMore(w, [] + [Login(h, EVERYONE)], w1, Login(q, EVERYONE));
    OneMore(w, [] + [Login(h, EVERYONE)] + [Login(q, EVERYONE)], w2, Login(p, EVERYONE));
  }

  lemma OneCreates(w: World, h: Player, q: Player, p: Player, m: Match) returns (w': World)
    requires Initial(w) && w.matches != [] && ThreePeople(h, q, p) && NewChat(w, m)
    ensures Leads(w, Arrivals(h, q, p) + [Create(h, m, false, PLAIN)], w')
    ensures Table(w', m, h, TwoTaken(Taken(h, NotReady), EMPTY_SLOT))
    ensures P(w', h).currentMatch == m && Idle(w', q) && Idle(w', p) && C(w', m.chat) == [h] && h in w'.pl
  {
    var w0 := ThreeArrive(w, h, q, p);
    CreatesTable(w0, m, h);
    OneMore(w, Arrivals(h, q, p), w0, Create(h, m, false, PLAIN));
    w' := CreateMatch(w0, h, m, false, PLAIN).w;
  }

  lemma TwoGather(w: World, h: Player, q: Player, p: Player, m: Match) returns (w': World)
    requires Initial(w) && w.matches != [] && ThreePeople(h, q, p) && NewChat(w, m)
    ensures Leads(w, Gathering(h, q, p, m), w')
    ensures Table(w', m, h, TwoTaken(Taken(h, NotReady), Taken(q, NotReady)))
    ensures P(w', h).currentMatch == m && P(w', q).currentMatch == m && Idle(w', p) && C(w', m.chat) == [h, q]
  {
    var w1 := OneCreates(w, h, q, p, m);
    SitsSecond(w1, m, h, q, Taken(h, NotReady), EMPTY_SLOT);
    OneMore(w, Arrivals(h, q, p) + [Create(h, m, false, PLAIN)], w1, Join(q, 0, false, true));
    w' := JoinListed(w1, q, 0, false, true).w;
  }

  /** Locking twice leaves the slot open with its player in it. */
  lemma LockedTwice(w: World, run: seq<Event>, w1: World, m: Match, h: Player, q: Player) returns (w': World)
    requires Leads(w, run, w1) && Table(w1, m, h, TwoTaken(Taken(h, NotReady), Taken(q, NotReady)))
    requires P(w1, h).currentMatch == m && q != h
    ensures Leads(w, run + [InMatch(h, false, Lock(1))] + [InMatch(h, false, Lock(1))], w')
    ensures Table(w', m, h, TwoTaken(Taken(h, NotReady), Taken(q, Open))) && w'.pl == w1.pl && w'.ch == w1.ch
  {
    LocksSecond(w1, m, h, Taken(h, NotReady), Taken(q, NotReady));
    OneMore(w, run, w1, InMatch(h, false, Lock(1)));
    var w2 := ActInMatch(w1, h, false, Lock(1)).w;
    LocksSecond(w2, m, h, Taken(h, NotReady), Taken(q, Locked));
    OneMore(w, run + [InMatch(h, false, Lock(1))], w2, InMatch(h, false, Lock(1)));
    w' := ActInMatch(w2, h, false, Lock(1)).w;
  }

  /** At the end `q`'s match is still `m`, `p` sits where `q` sat, and when `q` leaves, or logs out, the assertion
      that they have a slot fails. */
  lemma EveningEndsBadly(w: World, h: Player, q: Player, p: Player, m: Match)
    requires Initial(w) && w.matches != [] && ThreePeople(h, q, p) && NewChat(w, m)
    ensures var run, w' := Evening(h, q, p, m), SeatSafety.After(w, Evening(h, q, p, m));
      && SeatSafety.FreshRun(w, run) && P(w', q).currentMatch == m
      && M(w', m).slots == TwoTaken(Taken(h, NotReady), Taken(p, NotReady))
      && !LeaveMatch(w', q).ok && !Logout(w', q).ok
  {
    var w2 := TwoGather(w, h, q, p, m);
    var run := Gathering(h, q, p, m);
    var w4 := LockedTwice(w, run, w2, m, h, q);
    run := run + [InMatch(h, false, Lock(1))] + [InMatch(h, false, Lock(1))];
    SitsSecond(w4, m, h, p, Taken(h, NotReady), Taken(q, Open));
    OneMore(w, run, w4, Join(p, 0, false, true));
    Stranded(JoinListed(w4, p, 0, false, true).w, m, h, p, q);
  }

  /** Who sits in no slot of their match cannot leave it. */
  lemma Stranded(w: World, m: Match, h: Player, p: Player, q: Player)
    requires M(w, m).slots == TwoTaken(Taken(h, NotReady), Taken(p, NotReady))
    requires P(w, q).currentMatch == m && q != h && q != p
    ensures !LeaveMatch(w, q).ok && !Logout(w, q).ok
  {
    forall k | 0 <= k < SLOTS
      ensures !Occupies(M(w, m), k, q)
    {
      assert M(w, m).slots[k] == if k == 0 then Taken(h, NotReady) else if k == 1 then Taken(p, NotReady) else EMPTY_SLOT;
    }
    assert GetSlot(M(w, m), q).None?;
  }
}
