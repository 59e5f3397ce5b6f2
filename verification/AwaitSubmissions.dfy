/** Waiting for the scores of a scrim's play: how long it can take, and what becomes of every player. */
module AwaitSubmissions {
  import opened Wrappers
  import opened Multiplayer
  import opened MatchSafety

  /** What a look at a slot finds: nobody in it, a player whose recent score is not one of this play,
      or one whose score is. */
  datatype Look = Gone | Pending(player: Player) | Found(player: Player, team: Team, score: int)

  /** The look at slot `i` after `waits` waits of half a second, for any pattern of arrivals and departures. */
  type Arrivals = (nat, nat) -> Look

  /** Ten seconds, in all. */
  const PATIENCE: nat := 20

  /** What becomes of a player, and the number of waits by then. Whoever is in the slot after the last wait
      counts as not having submitted, without another look at their score. */
  datatype Fate =
    Read(player: Player, side: Side, score: int, at: nat) | TimedOut(left: Player?, at: nat) | Raises(at: nat)

  /** Who is in the slot. */
  function Occupant(l: Look): Player? {
    match l
    case Gone => null
    case Pending(player) => player
    case Found(player, _, _) => player
  }

  function SideOf(ffa: bool, player: Player, team: Team): Side {
    if ffa then PlayerSide(player) else TeamSide(team)
  }

  /** `defaultdict(int)` in insertion order. */
  function Added(scores: seq<(Side, int)>, side: Side, score: int): (r: seq<(Side, int)>)
    ensures |scores| <= |r|
  {
    if scores == [] then [(side, score)]
    else if scores[0].0 == side then [(side, scores[0].1 + score)] + scores[1..]
    else [scores[0]] + Added(scores[1..], side, score)
  }

  /** The fate of the player in slot `i`, looked at from `waits` on. */
  function FateOf(looks: Arrivals, i: nat, ffa: bool, waits: nat): Fate
    decreases PATIENCE - waits
  {
    match looks(i, waits)
    case Gone => Raises(waits)
    case Found(player, team, score) => Read(player, SideOf(ffa, player, team), score, waits)
    case Pending(_) =>
      if waits + 1 > PATIENCE then TimedOut(Occupant(looks(i, waits + 1)), waits + 1) else FateOf(looks, i, ffa, waits + 1)
  }

  /** `None` when the assertion on a slot's player fails. */
  function Fates(looks: Arrivals, n: nat, ffa: bool): (r: Option<seq<Fate>>)
    ensures r.Some? ==> |r.value| == n && forall f <- r.value :: !f.Raises?
  {
    if n == 0 then Some([])
    else
      match Fates(looks, n - 1, ffa)
      case None => None
      case Some(fates) =>
        var f := FateOf(looks, n - 1, ffa, Waits(fates));
        if f.Raises? then None else Some(fates + [f])
  }

  function Waits(fates: seq<Fate>): nat {
    if fates == [] then 0 else fates[|fates| - 1].at
  }

  /** The fates of the first slots, up to one whose assertion fails. */
  function FatesUntil(looks: Arrivals, n: nat, ffa: bool): (r: seq<Fate>)
    ensures |r| <= n
  {
    match Fates(looks, n, ffa)
    case Some(fates) => fates
    case None => FatesUntil(looks, n - 1, ffa)
  }

  /** The waits in all, also when they end in the assertion. */
  function TimeWaited(looks: Arrivals, n: nat, ffa: bool): nat {
    var fates := FatesUntil(looks, n, ffa);
    if |fates| == n then Waits(fates) else FateOf(looks, |fates|, ffa, Waits(fates)).at
  }

  function Missing(fates: seq<Fate>): seq<Player?> {
    if fates == [] then []
    else
      var n := |fates| - 1;
      Missing(fates[..n]) + if fates[n].TimedOut? then [fates[n].left] else []
  }

  /** A score of zero leaves no entry. */
  function Totals(fates: seq<Fate>): seq<(Side, int)> {
    if fates == [] then []
    else
      var n := |fates| - 1;
      var f := fates[n];
      if f.Read? && f.score != 0 then Added(Totals(fates[..n]), f.side, f.score) else Totals(fates[..n])
  }

  /** `await_submissions`, with the slots of the `count` players that were playing; no scores are looked
      for when the map is not known. `ok` is false when the assertion on a slot's player fails. */
  method AwaitSubmissions(looks: Arrivals, count: nat, ffa: bool, mapKnown: bool)
    returns (scores: seq<(Side, int)>, didntSubmit: seq<Player?>, timeWaited: nat, ok: bool)
    ensures !mapKnown ==> scores == [] && didntSubmit == [] && timeWaited == 0 && ok
    ensures mapKnown ==> ok == Fates(looks, count, ffa).Some?
    ensures mapKnown ==>
      var fates := FatesUntil(looks, count, ffa);
      scores == Totals(fates) && didntSubmit == Missing(fates) && timeWaited == TimeWaited(looks, count, ffa)
  {
    scores, didntSubmit, timeWaited, ok := [], [], 0, true;
    if !mapKnown {
      return;
    }
    ghost var fates: seq<Fate> := [];
    for i := 0 to count
      invariant Fates(looks, i, ffa) == Some(fates)
      invariant scores == Totals(fates) && didntSubmit == Missing(fates) && timeWaited == Waits(fates)
    {
      var fate := AwaitSlot(looks, i, ffa, timeWaited);
      timeWaited := fate.at;
      match fate {
        case Raises(_) =>
          RaisedHere(looks, i, count, ffa);
          ok := false;
          return;
        case Read(_, side, score, _) =>
          if score != 0 {
            scores := Added(scores, side, score);
          }
        case TimedOut(player, _) =>
          didntSubmit := didntSubmit + [player];
      }
      assert (fates + [fate])[..|fates|] == fates;
      fates := fates + [fate];
    }
  }

  /** Looks at a slot every half second. */
  method AwaitSlot(looks: Arrivals, i: nat, ffa: bool, waits: nat) returns (fate: Fate)
    ensures fate == FateOf(looks, i, ffa, waits)
  {
    var timeWaited := waits;
    while true
      invariant FateOf(looks, i, ffa, waits) == FateOf(looks, i, ffa, timeWaited)
      decreases PATIENCE + waits - timeWaited
    {
      match looks(i, timeWaited) {
        case Gone => return Raises(timeWaited);
        case Found(player, team, score) => return Read(player, SideOf(ffa, player, team), score, timeWaited);
        case Pending(player) =>
          timeWaited := timeWaited + 1;
          if timeWaited > PATIENCE {
            return TimedOut(Occupant(looks(i, timeWaited)), timeWaited);
          }
      }
    }
  }

  lemma RaisedHere(looks: Arrivals, i: nat, count: nat, ffa: bool)
    requires i < count && Fates(looks, i, ffa).Some?
    requires FateOf(looks, i, ffa, Waits(Fates(looks, i, ffa).value)).Raises?
    ensures Fates(looks, count, ffa).None? && FatesUntil(looks, count, ffa) == Fates(looks, i, ffa).value
    ensures TimeWaited(looks, count, ffa) == FateOf(looks, i, ffa, Waits(Fates(looks, i, ffa).value)).at
  {
    FatesStayNone(looks, i + 1, count, ffa);
  }

  lemma {:induction false} FatesStayNone(looks: Arrivals, n: nat, count: nat, ffa: bool)
    requires n <= count && Fates(looks, n, ffa).None?
    ensures Fates(looks, count, ffa).None? && FatesUntil(looks, count, ffa) == FatesUntil(looks, n, ffa)
    decreases count
  {
    if n < count {
      FatesStayNone(looks, n, count - 1, ffa);
    }
  }

  // ---------------------------------------------------------------- how long it takes

  /** Every player's wait ends: at the first look that finds a score, or, when there is none within the ten
      seconds (with one look even after that), by timing out. */
  lemma {:induction false} FateIsFirstFind(looks: Arrivals, i: nat, ffa: bool, waits: nat)
    ensures var f := FateOf(looks, i, ffa, waits);
      var end := if waits <= PATIENCE then PATIENCE else waits;
      match f
      case Read(p, side, score, at) =>
        && waits <= at <= end && looks(i, at).Found? && p == looks(i, at).player && score == looks(i, at).score
        && side == (if ffa then PlayerSide(p) else TeamSide(looks(i, at).team))
        && forall t :: waits <= t < at ==> looks(i, t).Pending?
      case TimedOut(p, at) =>
        && at == end + 1 && p == Occupant(looks(i, at)) && forall t :: waits <= t <= end ==> looks(i, t).Pending?
      case Raises(at) =>
        waits <= at <= end && looks(i, at).Gone? && forall t :: waits <= t < at ==> looks(i, t).Pending?
    decreases PATIENCE - waits
  {
    if looks(i, waits).Pending? && waits + 1 <= PATIENCE {
      FateIsFirstFind(looks, i, ffa, waits + 1);
    }
  }

  /** A wait is half a second. */
  function Seconds(waits: nat): real {
    waits as real * 0.5
  }

  /** Whatever the arrivals, and also when the wait ends in the assertion: at most ten seconds, and half a
      second for each player timed out; more than ten exactly when someone was. */
  lemma WaitIsBounded(looks: Arrivals, n: nat, ffa: bool)
    ensures var waited := Seconds(TimeWaited(looks, n, ffa));
      var missing := Missing(FatesUntil(looks, n, ffa));
      waited <= 10.0 + Seconds(|missing|) && (waited > 10.0 <==> missing != [])
  {
    UntilIsFates(looks, n, ffa);
    var fates := FatesUntil(looks, n, ffa);
    FatesAreBounded(looks, |fates|, ffa);
    if |fates| < n {
      FateIsFirstFind(looks, |fates|, ffa, Waits(fates));
    }
  }

  /** The fates stop at the first slot whose assertion fails. */
  lemma {:induction false} UntilIsFates(looks: Arrivals, n: nat, ffa: bool)
    ensures var fates := FatesUntil(looks, n, ffa);
      && Fates(looks, |fates|, ffa) == Some(fates)
      && (|fates| < n ==> FateOf(looks, |fates|, ffa, Waits(fates)).Raises?)
      && (|fates| == n <==> Fates(looks, n, ffa).Some?)
  {
    if n > 0 && Fates(looks, n, ffa).None? {
      UntilIsFates(looks, n - 1, ffa);
    }
  }

  lemma {:induction false} FatesAreBounded(looks: Arrivals, n: nat, ffa: bool)
    requires Fates(looks, n, ffa).Some?
    ensures var fates := Fates(looks, n, ffa).value;
      Waits(fates) <= PATIENCE + |Missing(fates)| && (Waits(fates) > PATIENCE <==> Missing(fates) != [])
  {
    if n > 0 {
      FatesAreBounded(looks, n - 1, ffa);
      var before, fates := Fates(looks, n - 1, ffa).value, Fates(looks, n, ffa).value;
      assert fates[..n - 1] == before;
      FateIsFirstFind(looks, n - 1, ffa, Waits(before));
    }
  }

  // ---------------------------------------------------------------- who is accounted for

  /** The look that decides slot `i` when looking starts after `waits` waits: the first that is not pending,
      or the one right after patience has run out. */
  predicate Decides(looks: Arrivals, i: nat, waits: nat, at: nat) {
    var end := if waits <= PATIENCE then PATIENCE else waits;
    && waits <= at <= end + 1 && (at <= end ==> !looks(i, at).Pending?)
    && forall t :: waits <= t < at ==> looks(i, t).Pending?
  }

  /** `ends[i]` is the deciding look of slot `i`, where each slot is looked at from the one before's. */
  predicate Timetable(looks: Arrivals, ends: seq<nat>) {
    forall i :: 0 <= i < |ends| ==> DecidedAt(looks, ends, i)
  }

  predicate DecidedAt(looks: Arrivals, ends: seq<nat>, i: nat)
    requires i < |ends|
  {
    Decides(looks, i, Start(ends, i), ends[i])
  }

  function Start(ends: seq<nat>, i: nat): nat
    requires i <= |ends|
  {
    if i == 0 then 0 else ends[i - 1]
  }

  function Ends(fates: seq<Fate>): seq<nat> {
    seq(|fates|, i requires 0 <= i < |fates| => fates[i].at)
  }

  /** The player has had a score read, or is among those who did not submit. */
  predicate Accounted(fates: seq<Fate>, p: Player) {
    (exists i :: 0 <= i < |fates| && fates[i].Read? && fates[i].player == p) || p in Missing(fates)
  }

  /** Each slot is looked at from the wait count at which the one before was decided. */
  lemma {:induction false} FateStarts(looks: Arrivals, n: nat, ffa: bool, i: nat)
    requires Fates(looks, n, ffa).Some? && i < n
    ensures var fates := Fates(looks, n, ffa).value; fates[i] == FateOf(looks, i, ffa, Start(Ends(fates), i))
  {
    var before, fates := Fates(looks, n - 1, ffa).value, Fates(looks, n, ffa).value;
    assert fates[..n - 1] == before;
    assert i > 0 ==> before[i - 1] == fates[i - 1];
    if i < n - 1 {
      FateStarts(looks, n - 1, ffa, i);
      assert before[i] == fates[i];
    }
  }

  /** Slots' fates are what their deciding looks show. */
  lemma FatesAtEnds(looks: Arrivals, n: nat, ffa: bool)
    requires Fates(looks, n, ffa).Some?
    ensures var fates := Fates(looks, n, ffa).value;
      && Timetable(looks, Ends(fates))
      && forall i :: 0 <= i < n ==>
           Occupant(looks(i, fates[i].at)) == if fates[i].Read? then fates[i].player else fates[i].left
  {
    var fates := Fates(looks, n, ffa).value;
    forall i | 0 <= i < n
      ensures DecidedAt(looks, Ends(fates), i)
      ensures Occupant(looks(i, fates[i].at)) == if fates[i].Read? then fates[i].player else fates[i].left
    {
      FateStarts(looks, n, ffa, i);
      FateIsFirstFind(looks, i, ffa, Start(Ends(fates), i));
    }
  }

  /** There is one timetable: the looks decide it. */
  lemma {:induction false} OneTimetable(looks: Arrivals, a: seq<nat>, b: seq<nat>, i: nat)
    requires Timetable(looks, a) && Timetable(looks, b) && i < |a| == |b|
    ensures a[i] == b[i]
  {
    if i > 0 {
      OneTimetable(looks, a, b, i - 1);
    }
    assert DecidedAt(looks, a, i) && DecidedAt(looks, b, i);
    OneDecision(looks, i, Start(a, i), a[i], b[i]);
  }

  lemma OneDecision(looks: Arrivals, i: nat, waits: nat, at: nat, at': nat)
    requires Decides(looks, i, waits, at) && Decides(looks, i, waits, at')
    ensures at == at'
  {
  }

  lemma {:induction false} MissingExactly(fates: seq<Fate>, p: Player?)
    ensures p in Missing(fates) <==> exists i :: 0 <= i < |fates| && fates[i].TimedOut? && fates[i].left == p
  {
    if fates != [] {
      var n := |fates| - 1;
      MissingExactly(fates[..n], p);
      if i :| 0 <= i < n && fates[i].TimedOut? && fates[i].left == p {
        assert fates[..n][i] == fates[i];
      }
    }
  }

  /** A player is accounted for if and only if one of the slots shows them at its deciding look. */
  lemma AccountedExactly(looks: Arrivals, n: nat, ffa: bool, ends: seq<nat>, p: Player)
    requires Fates(looks, n, ffa).Some? && Timetable(looks, ends) && |ends| == n
    ensures Accounted(Fates(looks, n, ffa).value, p) <==> exists i :: 0 <= i < n && Occupant(looks(i, ends[i])) == p
  {
    var fates := Fates(looks, n, ffa).value;
    FatesAtEnds(looks, n, ffa);
    forall i | 0 <= i < n
      ensures ends[i] == fates[i].at
    {
      OneTimetable(looks, ends, Ends(fates), i);
    }
    MissingExactly(fates, p);
    if i :| 0 <= i < n && Occupant(looks(i, ends[i])) == p {
      assert ends[i] == fates[i].at;
      assert fates[i].Read? || fates[i].left == p;
    }
    if Accounted(fates, p) {
      var i :| 0 <= i < n && (if fates[i].Read? then fates[i].player else fates[i].left) == p;
      assert ends[i] == fates[i].at;
    }
  }

  /** Slot `i` shows `p` at every look that may be taken at it. */
  predicate Stays(looks: Arrivals, i: nat, p: Player, from: nat, to: nat) {
    forall t :: from <= t <= to ==> Occupant(looks(i, t)) == p
  }

  /** When every awaited player keeps their slot while it is looked at, no assertion fails, and those
      accounted for are exactly the players awaited. */
  lemma EveryoneAccountedFor(looks: Arrivals, ffa: bool, awaited: seq<Player>)
    requires forall i :: 0 <= i < |awaited| ==> Stays(looks, i, awaited[i], 0, PATIENCE + |awaited|)
    ensures Fates(looks, |awaited|, ffa).Some?
    ensures forall p: Player :: Accounted(Fates(looks, |awaited|, ffa).value, p) <==> p in awaited
  {
    StayingReturns(looks, ffa, awaited, |awaited|);
    var n := |awaited|;
    var ends := Ends(Fates(looks, n, ffa).value);
    FatesAtEnds(looks, n, ffa);
    forall p: Player
      ensures Accounted(Fates(looks, n, ffa).value, p) <==> p in awaited
    {
      AccountedExactly(looks, n, ffa, ends, p);
      assert forall i :: 0 <= i < n ==> Occupant(looks(i, ends[i])) == awaited[i];
    }
  }

  lemma {:induction false} StayingReturns(looks: Arrivals, ffa: bool, awaited: seq<Player>, n: nat)
    requires n <= |awaited|
    requires forall i :: 0 <= i < |awaited| ==> Stays(looks, i, awaited[i], 0, PATIENCE + |awaited|)
    ensures Fates(looks, n, ffa).Some?
    ensures forall i :: 0 <= i < n ==> Fates(looks, n, ffa).value[i].at <= PATIENCE + n
    decreases n
  {
    if n > 0 {
      StayingReturns(looks, ffa, awaited, n - 1);
      var before := Fates(looks, n - 1, ffa).value;
      FateIsFirstFind(looks, n - 1, ffa, Waits(before));
      var f := FateOf(looks, n - 1, ffa, Waits(before));
      assert Stays(looks, n - 1, awaited[n - 1], 0, PATIENCE + |awaited|);
      assert f.at <= PATIENCE + |awaited| ==> Occupant(looks(n - 1, f.at)) == awaited[n - 1];
    }
  }

  /** A slot that changes hands: `p` is awaited in it and not done by the first look, and at the next one
      `q` sits there with a score. */
  function ChangedHands(p: Player, q: Player): Arrivals {
    (i: nat, waits: nat) => if i == 0 && waits == 0 then Pending(p) else Found(q, Red, 1)
  }

  /** Then the wait returns with `q`'s score, and `p` is neither read nor said not to have submitted. */
  lemma ReplacedPlayerIsLost(p: Player, q: Player)
    requires p != q
    ensures var fates := Fates(ChangedHands(p, q), 1, true);
      && fates == Some([Read(q, PlayerSide(q), 1, 1)])
      && !Accounted(fates.value, p) && Accounted(fates.value, q)
  {
    var looks := ChangedHands(p, q);
    assert looks(0, 0) == Pending(p) && looks(0, 1) == Found(q, Red, 1);
    assert FateOf(looks, 0, true, 1) == Read(q, PlayerSide(q), 1, 1);
    assert Fates(looks, 0, true) == Some([]);
    var fates := Fates(looks, 1, true).value;
    assert fates == [Read(q, PlayerSide(q), 1, 1)];
    assert fates[..0] == [] && Missing(fates) == [];
    assert fates[0].Read? && fates[0].player == q;
  }

  // ---------------------------------------------------------------- what is counted

  /** The entry of a side, or zero. */
  function Total(scores: seq<(Side, int)>, side: Side): int {
    if scores == [] then 0 else if scores[0].0 == side then scores[0].1 else Total(scores[1..], side)
  }

  /** What the players of a side have scored. */
  function ReadFor(fates: seq<Fate>, side: Side): int {
    if fates == [] then 0
    else
      var n := |fates| - 1;
      ReadFor(fates[..n], side) + if fates[n].Read? && fates[n].side == side then fates[n].score else 0
  }

  lemma {:induction false} AddedTotal(scores: seq<(Side, int)>, side: Side, score: int, other: Side)
    ensures Total(Added(scores, side, score), other) == Total(scores, other) + if other == side then score else 0
  {
    if scores != [] {
      AddedTotal(scores[1..], side, score, other);
    }
  }

  /** Each side's entry is the sum of its players' scores. */
  lemma {:induction false} TotalsAreSums(fates: seq<Fate>, side: Side)
    ensures Total(Totals(fates), side) == ReadFor(fates, side)
  {
    if fates != [] {
      var n := |fates| - 1;
      TotalsAreSums(fates[..n], side);
      if fates[n].Read? && fates[n].score != 0 {
        AddedTotal(Totals(fates[..n]), fates[n].side, fates[n].score, side);
      }
    }
  }

  function SidesOf(scores: seq<(Side, int)>): (r: seq<Side>)
    ensures |r| == |scores| && forall k :: 0 <= k < |scores| ==> r[k] == scores[k].0
  {
    seq(|scores|, k requires 0 <= k < |scores| => scores[k].0)
  }

  /** The sides that a score other than zero was read for, in the order of their first. */
  function Scorers(fates: seq<Fate>): seq<Side> {
    if fates == [] then []
    else
      var f := fates[|fates| - 1];
      var before := Scorers(fates[..|fates| - 1]);
      if f.Read? && f.score != 0 && f.side !in before then before + [f.side] else before
  }

  /** They are the sides among the scores, and in that order: it decides between equals. */
  lemma {:induction false} SidesInOrder(fates: seq<Fate>)
    ensures SidesOf(Totals(fates)) == Scorers(fates)
  {
    if fates != [] {
      var n := |fates| - 1;
      SidesInOrder(fates[..n]);
      if fates[n].Read? && fates[n].score != 0 {
        AddedLast(Totals(fates[..n]), fates[n].side, fates[n].score);
      }
    }
  }

  lemma {:induction false} AddedLast(scores: seq<(Side, int)>, side: Side, score: int)
    ensures SidesOf(Added(scores, side, score)) ==
      if side in SidesOf(scores) then SidesOf(scores) else SidesOf(scores) + [side]
  {
    if scores != [] {
      assert SidesOf(scores) == [scores[0].0] + SidesOf(scores[1..]);
      if scores[0].0 != side {
        AddedLast(scores[1..], side, score);
      }
    }
  }

  predicate DistinctSides(scores: seq<(Side, int)>) {
    forall i, j :: 0 <= i < j < |scores| ==> scores[i].0 != scores[j].0
  }

  lemma {:induction false} AddedSides(scores: seq<(Side, int)>, side: Side, score: int)
    requires DistinctSides(scores)
    ensures DistinctSides(Added(scores, side, score))
    ensures forall k :: 0 <= k < |Added(scores, side, score)| ==>
      var e := Added(scores, side, score)[k].0; e == side || exists j :: 0 <= j < |scores| && scores[j].0 == e
  {
    if scores != [] && scores[0].0 != side {
      assert forall i, j :: 0 <= i < j < |scores[1..]| ==> scores[1..][i] == scores[i + 1] && scores[1..][j] == scores[j + 1];
      AddedSides(scores[1..], side, score);
      var r, rest := Added(scores, side, score), Added(scores[1..], side, score);
      forall k | 0 <= k < |rest|
        ensures rest[k].0 != scores[0].0
        ensures rest[k].0 == side || exists j :: 0 <= j < |scores| && scores[j].0 == rest[k].0
      {
        if rest[k].0 != side {
          var j :| 0 <= j < |scores[1..]| && scores[1..][j].0 == rest[k].0;
          assert scores[j + 1].0 == rest[k].0;
        }
      }
      assert forall k :: 0 < k < |r| ==> r[k] == rest[k - 1];
    }
  }

  /** The sides in the scores are of the kind that the match's team type has, once each. */
  lemma {:induction false} SidesFit(fates: seq<Fate>, t: TeamType)
    requires forall i :: 0 <= i < |fates| && fates[i].Read? ==> Fits(fates[i].side, t)
    ensures DistinctSides(Totals(fates))
    ensures forall k :: 0 <= k < |Totals(fates)| ==> Fits(Totals(fates)[k].0, t)
  {
    if fates != [] {
      var n := |fates| - 1;
      SidesFit(fates[..n], t);
      if fates[n].Read? && fates[n].score != 0 {
        AddedSides(Totals(fates[..n]), fates[n].side, fates[n].score);
      }
    }
  }

  /** In team modes nobody who sits in a slot is neutral, which is what `Found` looks report. */
  ghost predicate TeamsSeen(looks: Arrivals, n: nat, t: TeamType) {
    forall i: nat, w: nat :: i < n && looks(i, w).Found? && Teams(t) ==> !looks(i, w).team.Neutral?
  }

  lemma {:induction false} FatesFit(looks: Arrivals, n: nat, t: TeamType)
    requires TeamsSeen(looks, n, t) && Fates(looks, n, !Teams(t)).Some?
    ensures var fates := Fates(looks, n, !Teams(t)).value;
      forall i :: 0 <= i < |fates| && fates[i].Read? ==> Fits(fates[i].side, t)
  {
    if n > 0 {
      FatesFit(looks, n - 1, t);
      FateIsFirstFind(looks, n - 1, !Teams(t), Waits(Fates(looks, n - 1, !Teams(t)).value));
    }
  }

  /** With the scores awaited, the point is awarded without an assertion failing, and the scrim's ledger is
      kept. */
  lemma AwaitedPointIsAwarded(s: Scrim, t: TeamType, looks: Arrivals, n: nat)
    requires PointsMatch(s) && NoChampion(s) && WinnersFit(s, t) && s.running
    requires TeamsSeen(looks, n, t) && Fates(looks, n, !Teams(t)).Some?
    ensures var (s', ok) := PointAwarded(s, t, Totals(Fates(looks, n, !Teams(t)).value));
      ok && PointsMatch(s') && NoChampion(s') && WinnersFit(s', t)
  {
    FatesFit(looks, n, t);
    SidesFit(Fates(looks, n, !Teams(t)).value, t);
    PointKeepsLedger(s, t, Totals(Fates(looks, n, !Teams(t)).value));
  }
}
