/** The profile ledger over runs of submissions that do not overlap: incrementally kept totals
    against what the scores table says. */
module Ledger {
  import opened Wrappers
  import opened Weighted
  import opened Scores

  /** A player's stats in one mode, in memory or as a row of the stats table. */
  datatype Stats = Stats(
    tscore: int, rscore: int, pp: int, acc: real, plays: int, playtime: int, maxCombo: int, totalHits: int,
    grades: map<Grade, int>)

  // ---------------------------------------------------------------- applying one score

  function ApplyBase(s: Scored, st: Stats): Stats {
    st.(playtime := st.playtime + s.timeElapsed / 1000, plays := st.plays + 1, tscore := st.tscore + s.play.score,
        totalHits := st.totalHits + Hits(s.play))
  }

  function RankedScoreDelta(s: Scored): int {
    match s.prevBest
    case None => s.play.score
    case Some(prev) => s.play.score - prev.score
  }

  function GradeCountDeltas(s: Scored): map<Grade, int> {
    match s.prevBest
    case None => if Counted(s.play.grade) then map[s.play.grade := 1] else map[]
    case Some(prev) =>
      if s.play.grade == prev.grade then map[]
      else
        var gained: map<Grade, int> := if Counted(s.play.grade) then map[s.play.grade := 1] else map[];
        if Counted(prev.grade)
        then gained[prev.grade := (if prev.grade in gained then gained[prev.grade] else 0) - 1]
        else gained
  }

  function AddDeltas(grades: map<Grade, int>, deltas: map<Grade, int>): map<Grade, int> {
    map g | g in grades :: grades[g] + if g in deltas then deltas[g] else 0
  }

  function ApplyRanked(s: Scored, st: Stats): Stats {
    st.(grades := AddDeltas(st.grades, GradeCountDeltas(s)), rscore := st.rscore + RankedScoreDelta(s))
  }

  /** `apply_score_stats`; every beatmap awards ranked pp in this code. */
  function ApplyScoreStats(s: Scored, st: Stats, rankedStatus: int): Stats {
    var st := ApplyBase(s, st);
    if !s.play.passed then st
    else
      var st := if s.play.maxCombo > st.maxCombo then st.(maxCombo := s.play.maxCombo) else st;
      if HasLeaderboard(rankedStatus) && s.status.Best? then ApplyRanked(s, st) else st
  }

  /** Whether the weighted totals are summed again. */
  predicate Reweighs(s: Scored, rankedStatus: int) {
    s.play.passed && HasLeaderboard(rankedStatus) && s.status.Best?
  }

  /** The stats after a submission, given the query's answer when the totals are summed again. */
  function NewStats(s: Scored, st: Stats, rankedStatus: int, q: seq<Performance>): Stats
    requires Reweighs(s, rankedStatus) ==> q != []
  {
    var st := ApplyScoreStats(s, st, rankedStatus);
    if Reweighs(s, rankedStatus)
    then st.(acc := CalculateWeightedAccuracy(q), pp := CalculateWeightedPp(q))
    else st
  }

  // ---------------------------------------------------------------- runs

  /** The scores table and everyone's stats by user and mode; `maps` holds each beatmap's ranked status. */
  datatype Site = Site(rows: seq<Row>, stats: map<(int, nat), Stats>)

  /** One submission: the play, and the order the database gave to ties in the weighted query. */
  datatype Submission = Submission(play: Play, query: seq<Performance>)

  /** The submission is of a known map by a known player, with non-negative pp, and the query's answer is one. */
  predicate Admissible(site: Site, maps: map<Md5, int>, e: Submission) {
    var p := e.play;
    && p.mapMd5 in maps && maps[p.mapMd5] >= -2 && (p.userId, p.mode) in site.stats && p.computedPp >= 0.0
    && var s := CalculateStatus(site.rows, p);
       Reweighs(s, maps[p.mapMd5]) ==>
         IsWeightedQuery(e.query, Persist(site.rows, s, |site.rows|), maps, p.userId, p.mode)
  }

  function Submit(site: Site, maps: map<Md5, int>, e: Submission): Site
    requires Admissible(site, maps, e)
  {
    var p := e.play;
    var s := CalculateStatus(site.rows, p);
    QueryNotEmpty(site, maps, e);
    Site(Persist(site.rows, s, |site.rows|),
         site.stats[(p.userId, p.mode) := NewStats(s, site.stats[(p.userId, p.mode)], maps[p.mapMd5], e.query)])
  }

  lemma QueryNotEmpty(site: Site, maps: map<Md5, int>, e: Submission)
    requires Admissible(site, maps, e)
    ensures Reweighs(CalculateStatus(site.rows, e.play), maps[e.play.mapMd5]) ==> e.query != []
  {
    var s := CalculateStatus(site.rows, e.play);
    var rows := Persist(site.rows, s, |site.rows|);
    if Reweighs(s, maps[e.play.mapMd5]) {
      var n := |rows| - 1;
      assert CountsForTotals(rows[n], maps, e.play.userId, e.play.mode);
      assert PerformanceRows(rows, maps, e.play.userId, e.play.mode) != [];
      assert |multiset(e.query)| == |multiset(PerformanceRows(rows, maps, e.play.userId, e.play.mode))|;
    }
  }

  ghost predicate ValidRun(site: Site, maps: map<Md5, int>, run: seq<Submission>)
    decreases |run|
  {
    run == [] || (Admissible(site, maps, run[0]) && ValidRun(Submit(site, maps, run[0]), maps, run[1..]))
  }

  /** The site after a run. */
  ghost function After(site: Site, maps: map<Md5, int>, run: seq<Submission>): Site
    requires ValidRun(site, maps, run)
    decreases |run|
  {
    if run == [] then site else After(Submit(site, maps, run[0]), maps, run[1..])
  }

  // ---------------------------------------------------------------- what the totals mean

  predicate Mine(r: Row, userId: int, mode: nat) {
    r.userId == userId && r.mode == mode
  }

  predicate Ranked(r: Row, maps: map<Md5, int>) {
    r.status.Best? && r.mapMd5 in maps && HasLeaderboard(maps[r.mapMd5])
  }

  function One(userId: int, mode: nat): Row -> int {
    (r: Row) => if Mine(r, userId, mode) then 1 else 0
  }

  function TotalScore(userId: int, mode: nat): Row -> int {
    (r: Row) => if Mine(r, userId, mode) then r.score else 0
  }

  function PlaySeconds(userId: int, mode: nat): Row -> int {
    (r: Row) => if Mine(r, userId, mode) then r.timeElapsed / 1000 else 0
  }

  function TotalHits(userId: int, mode: nat): Row -> int {
    (r: Row) => if Mine(r, userId, mode) then r.hits else 0
  }

  function RankedScore(userId: int, mode: nat, maps: map<Md5, int>): Row -> int {
    (r: Row) => if Mine(r, userId, mode) && Ranked(r, maps) then r.score else 0
  }

  function GradeCount(userId: int, mode: nat, maps: map<Md5, int>, g: Grade): Row -> int {
    (r: Row) => if Mine(r, userId, mode) && Ranked(r, maps) && r.grade == g then 1 else 0
  }

  /** Every incremental counter equals its recomputation from the table. */
  ghost predicate Balanced(rows: seq<Row>, maps: map<Md5, int>, userId: int, mode: nat, st: Stats) {
    && PlainBalanced(rows, userId, mode, st)
    && RankedBalanced(rows, maps, userId, mode, st)
    && MaxCombo(rows, userId, mode, st.maxCombo)
  }

  ghost predicate PlainBalanced(rows: seq<Row>, userId: int, mode: nat, st: Stats) {
    && st.plays == Sum(rows, One(userId, mode))
    && st.tscore == Sum(rows, TotalScore(userId, mode))
    && st.playtime == Sum(rows, PlaySeconds(userId, mode))
    && st.totalHits == Sum(rows, TotalHits(userId, mode))
  }

  /** Ranked score and grade counts, over the player's best rows on leaderboard maps. */
  ghost predicate RankedBalanced(rows: seq<Row>, maps: map<Md5, int>, userId: int, mode: nat, st: Stats) {
    && st.rscore == Sum(rows, RankedScore(userId, mode, maps))
    && st.grades.Keys == COUNTED_GRADES
    && forall g <- COUNTED_GRADES :: st.grades[g] == Sum(rows, GradeCount(userId, mode, maps, g))
  }

  /** The stored combo is the largest of a passed row, and zero while none exceeds zero. */
  ghost predicate MaxCombo(rows: seq<Row>, userId: int, mode: nat, combo: int) {
    && (forall i :: 0 <= i < |rows| && Mine(rows[i], userId, mode) && Passed(rows[i]) ==> rows[i].maxCombo <= combo)
    && (combo == 0 ||
        exists i :: 0 <= i < |rows| && Mine(rows[i], userId, mode) && Passed(rows[i]) && rows[i].maxCombo == combo)
  }

  /** `k` is the best row of `j`'s key, at least as good, and strictly better than it when `j` is earlier. */
  predicate Beats(rows: seq<Row>, k: nat, j: nat)
    requires k < |rows| && j < |rows|
  {
    IsBest(rows[k], KeyOf(rows[j])) && rows[j].pp <= rows[k].pp && (j < k ==> rows[j].pp < rows[k].pp)
  }

  /** A best row exists for a key exactly when a passed one does, it holds the maximum pp, and ties stay
      with the earliest. */
  ghost predicate BestIsEarliestMaximum(rows: seq<Row>) {
    forall j :: 0 <= j < |rows| && Passed(rows[j]) ==> exists k :: 0 <= k < |rows| && Beats(rows, k, j)
  }

  ghost predicate RowsSane(rows: seq<Row>) {
    forall i :: 0 <= i < |rows| ==> rows[i].pp >= 0.0 && 0.0 <= rows[i].acc <= 100.0
  }

  /** The stored pp is no more than any list at least as good as the player's bests would give. */
  ghost predicate PpCovered(rows: seq<Row>, maps: map<Md5, int>, userId: int, mode: nat, pp: int) {
    forall q: seq<Performance> :: Covers(q, rows, maps, userId, mode) ==> pp <= CalculateWeightedPp(q)
  }

  ghost predicate Covers(q: seq<Performance>, rows: seq<Row>, maps: map<Md5, int>, userId: int, mode: nat) {
    && Descending(q) && Nonnegative(q)
    && forall t: real :: AtLeast(PerformanceRows(rows, maps, userId, mode), t) <= AtLeast(q, t)
  }

  ghost predicate Ledger(site: Site, maps: map<Md5, int>) {
    && UniqueBest(site.rows) && BestIsEarliestMaximum(site.rows) && RowsSane(site.rows)
    && forall key <- site.stats ::
         && Balanced(site.rows, maps, key.0, key.1, site.stats[key])
         && PpCovered(site.rows, maps, key.0, key.1, site.stats[key].pp)
         && 0.0 <= site.stats[key].acc <= 100.0
  }

  // ---------------------------------------------------------------- proofs

  /** A player's stats, weighted totals aside, once `p` is submitted by whoever played it. */
  function StatsAfter(rows: seq<Row>, maps: map<Md5, int>, userId: int, mode: nat, st: Stats, p: Play): Stats
    requires p.mapMd5 in maps
  {
    if p.userId == userId && p.mode == mode then ApplyScoreStats(CalculateStatus(rows, p), st, maps[p.mapMd5]) else st
  }

  lemma UniqueBestKept(rows: seq<Row>, p: Play, id: nat)
    requires UniqueBest(rows)
    ensures UniqueBest(Persist(rows, CalculateStatus(rows, p), id))
  {
  }

  lemma BestIsEarliestMaximumKept(rows: seq<Row>, p: Play, id: nat)
    requires UniqueBest(rows) && BestIsEarliestMaximum(rows)
    ensures BestIsEarliestMaximum(Persist(rows, CalculateStatus(rows, p), id))
  {
    var s := CalculateStatus(rows, p);
    var rows' := Persist(rows, s, id);
    forall j | 0 <= j < |rows'| && Passed(rows'[j])
      ensures exists k :: 0 <= k < |rows'| && Beats(rows', k, j)
    {
      var k := WhoBeats(rows, p, id, j);
    }
  }

  lemma WhoBeats(rows: seq<Row>, p: Play, id: nat, j: nat) returns (k: nat)
    requires UniqueBest(rows) && BestIsEarliestMaximum(rows)
    requires j <= |rows| && Passed(Persist(rows, CalculateStatus(rows, p), id)[j])
    ensures k <= |rows| && Beats(Persist(rows, CalculateStatus(rows, p), id), k, j)
  {
    var s := CalculateStatus(rows, p);
    StatusDecided(rows, p);
    if j == |rows| {
      k := if s.status.Best? then |rows| else BestIndex(rows, KeyOfScored(s)).value;
    } else {
      k := WhoBeatsOld(rows, s, id, j);
    }
  }

  function KeyOfScored(s: Scored): Key {
    Key(s.play.userId, s.play.mapMd5, s.play.mode)
  }

  /** `s` is best exactly when it passed and betters the best rows of its key, of which there is one if it
      passed without becoming best. */
  predicate Decided(rows: seq<Row>, s: Scored) {
    && (s.status.Best? ==> forall k :: 0 <= k < |rows| && IsBest(rows[k], KeyOfScored(s)) ==> rows[k].pp < s.pp)
    && (s.status.Submitted? ==>
          BestIndex(rows, KeyOfScored(s)).Some? && s.pp <= rows[BestIndex(rows, KeyOfScored(s)).value].pp)
  }

  lemma StatusDecided(rows: seq<Row>, p: Play)
    requires UniqueBest(rows)
    ensures Decided(rows, CalculateStatus(rows, p)) && CalculateStatus(rows, p).play == p
  {
  }

  lemma WhoBeatsOld(rows: seq<Row>, s: Scored, id: nat, j: nat) returns (k: nat)
    requires UniqueBest(rows) && BestIsEarliestMaximum(rows) && Decided(rows, s)
    requires j < |rows| && Passed(Persist(rows, s, id)[j])
    ensures k <= |rows| && Beats(Persist(rows, s, id), k, j)
  {
    assert Passed(rows[j]);
    k :| 0 <= k < |rows| && Beats(rows, k, j);
    if KeyOf(rows[j]) == KeyOfScored(s) && s.status.Best? {
      k := |rows|;
    }
  }

  /** Rows of other players and modes leave a player's totals alone, and the player's own row moves
      each of them as the code does. */
  lemma BalancedKept(rows: seq<Row>, maps: map<Md5, int>, userId: int, mode: nat, st: Stats, p: Play, id: nat)
    requires UniqueBest(rows) && Balanced(rows, maps, userId, mode, st) && p.mapMd5 in maps
    ensures Balanced(Persist(rows, CalculateStatus(rows, p), id), maps, userId, mode,
                     StatsAfter(rows, maps, userId, mode, st, p))
  {
    PlainBalancedKept(rows, maps, userId, mode, st, p, id);
    RankedBalancedKept(rows, maps, userId, mode, st, p, id);
    MaxComboKept(rows, maps, userId, mode, st, p, id);
  }

  lemma PlainBalancedKept(rows: seq<Row>, maps: map<Md5, int>, userId: int, mode: nat, st: Stats, p: Play, id: nat)
    requires UniqueBest(rows) && PlainBalanced(rows, userId, mode, st) && p.mapMd5 in maps
    ensures PlainBalanced(Persist(rows, CalculateStatus(rows, p), id), userId, mode,
                          StatsAfter(rows, maps, userId, mode, st, p))
  {
    PlainTotalsMove(rows, userId, mode, p, id);
  }

  lemma RankedBalancedKept(rows: seq<Row>, maps: map<Md5, int>, userId: int, mode: nat, st: Stats, p: Play, id: nat)
    requires UniqueBest(rows) && RankedBalanced(rows, maps, userId, mode, st) && p.mapMd5 in maps
    ensures RankedBalanced(Persist(rows, CalculateStatus(rows, p), id), maps, userId, mode,
                           StatsAfter(rows, maps, userId, mode, st, p))
  {
    RankedScoreMoves(rows, maps, userId, mode, p, id);
    forall g | g in COUNTED_GRADES
      ensures GradeMoves(rows, maps, userId, mode, p, id, g)
    {
      GradeCountMoves(rows, maps, userId, mode, p, id, g);
    }
  }

  lemma PlainTotalsMove(rows: seq<Row>, userId: int, mode: nat, p: Play, id: nat)
    requires UniqueBest(rows)
    ensures var s := CalculateStatus(rows, p);
      var rows' := Persist(rows, s, id);
      var mine := p.userId == userId && p.mode == mode;
      && Sum(rows', One(userId, mode)) == Sum(rows, One(userId, mode)) + (if mine then 1 else 0)
      && Sum(rows', TotalScore(userId, mode)) == Sum(rows, TotalScore(userId, mode)) + (if mine then p.score else 0)
      && Sum(rows', PlaySeconds(userId, mode)) ==
           Sum(rows, PlaySeconds(userId, mode)) + (if mine then s.timeElapsed / 1000 else 0)
      && Sum(rows', TotalHits(userId, mode)) == Sum(rows, TotalHits(userId, mode)) + (if mine then Hits(p) else 0)
  {
    SumPersist(rows, p, id, One(userId, mode));
    SumPersist(rows, p, id, TotalScore(userId, mode));
    SumPersist(rows, p, id, PlaySeconds(userId, mode));
    SumPersist(rows, p, id, TotalHits(userId, mode));
  }

  lemma RankedScoreMoves(rows: seq<Row>, maps: map<Md5, int>, userId: int, mode: nat, p: Play, id: nat)
    requires UniqueBest(rows) && p.mapMd5 in maps
    ensures var s := CalculateStatus(rows, p);
      var mine := p.userId == userId && p.mode == mode && Reweighs(s, maps[p.mapMd5]);
      Sum(Persist(rows, s, id), RankedScore(userId, mode, maps)) ==
      Sum(rows, RankedScore(userId, mode, maps)) + if mine then RankedScoreDelta(s) else 0
  {
    SumPersist(rows, p, id, RankedScore(userId, mode, maps));
  }

  lemma GradeCountMoves(rows: seq<Row>, maps: map<Md5, int>, userId: int, mode: nat, p: Play, id: nat, g: Grade)
    requires UniqueBest(rows) && p.mapMd5 in maps && g in COUNTED_GRADES
    ensures GradeMoves(rows, maps, userId, mode, p, id, g)
  {
    SumPersist(rows, p, id, GradeCount(userId, mode, maps, g));
  }

  ghost predicate GradeMoves(rows: seq<Row>, maps: map<Md5, int>, userId: int, mode: nat, p: Play, id: nat, g: Grade)
    requires p.mapMd5 in maps
  {
    var s := CalculateStatus(rows, p);
    var mine := p.userId == userId && p.mode == mode && Reweighs(s, maps[p.mapMd5]);
    Sum(Persist(rows, s, id), GradeCount(userId, mode, maps, g)) == Sum(rows, GradeCount(userId, mode, maps, g)) +
      if mine && g in GradeCountDeltas(s) then GradeCountDeltas(s)[g] else 0
  }

  lemma MaxComboKept(rows: seq<Row>, maps: map<Md5, int>, userId: int, mode: nat, st: Stats, p: Play, id: nat)
    requires MaxCombo(rows, userId, mode, st.maxCombo) && p.mapMd5 in maps
    ensures MaxCombo(Persist(rows, CalculateStatus(rows, p), id), userId, mode,
                     StatsAfter(rows, maps, userId, mode, st, p).maxCombo)
  {
    var s := CalculateStatus(rows, p);
    var rows' := Persist(rows, s, id);
    assert rows'[|rows|] == NewRow(s, id);
    if st.maxCombo != 0 {
      var i :| 0 <= i < |rows| && Mine(rows[i], userId, mode) && Passed(rows[i]) && rows[i].maxCombo == st.maxCombo;
      assert Mine(rows'[i], userId, mode) && Passed(rows'[i]) && rows'[i].maxCombo == st.maxCombo;
    }
  }

  function AboveThreshold(maps: map<Md5, int>, userId: int, mode: nat, t: real): Row -> int {
    (r: Row) => if CountsForTotals(r, maps, userId, mode) && r.pp >= t then 1 else 0
  }

  lemma {:induction false} AtLeastIsSum(rows: seq<Row>, maps: map<Md5, int>, userId: int, mode: nat, t: real)
    ensures AtLeast(PerformanceRows(rows, maps, userId, mode), t) == Sum(rows, AboveThreshold(maps, userId, mode, t))
  {
    if rows != [] {
      var n := |rows| - 1;
      AtLeastIsSum(rows[..n], maps, userId, mode, t);
      var front := PerformanceRows(rows[..n], maps, userId, mode);
      var x := Performance(rows[n].pp, rows[n].acc);
      if CountsForTotals(rows[n], maps, userId, mode) {
        assert PerformanceRows(rows, maps, userId, mode) == front + [x];
        assert (front + [x])[..|front|] == front;
      } else {
        assert PerformanceRows(rows, maps, userId, mode) == front;
      }
    }
  }

  /** A submission never leaves fewer of anyone's best scores above any threshold. */
  lemma MoreAboveThreshold(rows: seq<Row>, maps: map<Md5, int>, userId: int, mode: nat, p: Play, id: nat, t: real)
    requires UniqueBest(rows)
    ensures AtLeast(PerformanceRows(rows, maps, userId, mode), t) <=
            AtLeast(PerformanceRows(Persist(rows, CalculateStatus(rows, p), id), maps, userId, mode), t)
  {
    AtLeastIsSum(rows, maps, userId, mode, t);
    AtLeastIsSum(Persist(rows, CalculateStatus(rows, p), id), maps, userId, mode, t);
    SumPersist(rows, p, id, AboveThreshold(maps, userId, mode, t));
  }

  lemma CoverKept(rows: seq<Row>, maps: map<Md5, int>, userId: int, mode: nat, p: Play, id: nat, q: seq<Performance>)
    requires UniqueBest(rows)
    requires Covers(q, Persist(rows, CalculateStatus(rows, p), id), maps, userId, mode)
    ensures Covers(q, rows, maps, userId, mode)
  {
    forall t: real
      ensures AtLeast(PerformanceRows(rows, maps, userId, mode), t) <= AtLeast(q, t)
    {
      MoreAboveThreshold(rows, maps, userId, mode, p, id, t);
    }
  }

  /** A query's answer covers the table exactly: its rows are the table's. */
  lemma QueryCovers(q: seq<Performance>, rows: seq<Row>, maps: map<Md5, int>, userId: int, mode: nat)
    requires RowsSane(rows) && IsWeightedQuery(q, rows, maps, userId, mode)
    ensures Covers(q, rows, maps, userId, mode)
    ensures forall t: real :: AtLeast(PerformanceRows(rows, maps, userId, mode), t) == AtLeast(q, t)
    ensures forall i :: 0 <= i < |q| ==> 0.0 <= q[i].acc <= 100.0
  {
    var performances := PerformanceRows(rows, maps, userId, mode);
    PerformancesSane(rows, maps, userId, mode);
    forall t: real
      ensures AtLeast(performances, t) == AtLeast(q, t)
    {
      AtLeastOfPermutation(performances, q, t);
    }
    forall i | 0 <= i < |q|
      ensures q[i].pp >= 0.0 && 0.0 <= q[i].acc <= 100.0
    {
      assert q[i] in multiset(q);
      assert q[i] in multiset(performances);
      assert q[i] in performances;
    }
  }

  lemma {:induction false} PerformancesSane(rows: seq<Row>, maps: map<Md5, int>, userId: int, mode: nat)
    requires RowsSane(rows)
    ensures forall x <- PerformanceRows(rows, maps, userId, mode) :: x.pp >= 0.0 && 0.0 <= x.acc <= 100.0
  {
    if rows != [] {
      PerformancesSane(rows[..|rows| - 1], maps, userId, mode);
    }
  }

  lemma RowsSaneKept(rows: seq<Row>, p: Play, id: nat)
    requires RowsSane(rows) && p.computedPp >= 0.0
    ensures RowsSane(Persist(rows, CalculateStatus(rows, p), id))
  {
    AccuracyIsPercentage(p);
  }

  /** The stored pp after a submission: never less than before, and again covered by the table. */
  lemma PpCoveredKept(rows: seq<Row>, maps: map<Md5, int>, userId: int, mode: nat, pp: int, p: Play, id: nat)
    requires UniqueBest(rows) && PpCovered(rows, maps, userId, mode, pp)
    ensures PpCovered(Persist(rows, CalculateStatus(rows, p), id), maps, userId, mode, pp)
  {
    forall q: seq<Performance> | Covers(q, Persist(rows, CalculateStatus(rows, p), id), maps, userId, mode)
      ensures pp <= CalculateWeightedPp(q)
    {
      CoverKept(rows, maps, userId, mode, p, id, q);
    }
  }

  lemma SummedPpCovered(rows: seq<Row>, maps: map<Md5, int>, userId: int, mode: nat, q0: seq<Performance>)
    requires RowsSane(rows) && IsWeightedQuery(q0, rows, maps, userId, mode)
    ensures PpCovered(rows, maps, userId, mode, CalculateWeightedPp(q0))
  {
    QueryCovers(q0, rows, maps, userId, mode);
    forall q: seq<Performance> | Covers(q, rows, maps, userId, mode)
      ensures CalculateWeightedPp(q0) <= CalculateWeightedPp(q)
    {
      PpMonotone(q0, q);
    }
  }

  /** One submission keeps each player's part of the ledger, and no stored pp falls. */
  lemma SubmitKeepsStats(site: Site, maps: map<Md5, int>, e: Submission, key: (int, nat))
    requires Ledger(site, maps) && Admissible(site, maps, e) && key in site.stats
    ensures var site' := Submit(site, maps, e);
      && key in site'.stats
      && Balanced(site'.rows, maps, key.0, key.1, site'.stats[key])
      && PpCovered(site'.rows, maps, key.0, key.1, site'.stats[key].pp)
      && 0.0 <= site'.stats[key].acc <= 100.0
      && site.stats[key].pp <= site'.stats[key].pp
  {
    var p, rows, st, n := e.play, site.rows, site.stats[key], |site.rows|;
    BalancedKept(rows, maps, key.0, key.1, st, p, n);
    PpCoveredKept(rows, maps, key.0, key.1, st.pp, p, n);
    RowsSaneKept(rows, p, n);
    SubmittedStats(site, maps, e, key);
    var reweighs := key == (p.userId, p.mode) && Reweighs(CalculateStatus(rows, p), maps[p.mapMd5]);
    TotalsStored(Submit(site, maps, e).rows, maps, key.0, key.1, st, StatsAfter(rows, maps, key.0, key.1, st, p), reweighs,
                 e.query);
  }

  /** The counters moved as they should; the totals are summed again, or stay. */
  lemma TotalsStored(rows: seq<Row>, maps: map<Md5, int>, userId: int, mode: nat, before: Stats, counted: Stats,
                     reweighs: bool, q: seq<Performance>)
    requires RowsSane(rows) && Balanced(rows, maps, userId, mode, counted) && PpCovered(rows, maps, userId, mode, before.pp)
    requires counted.pp == before.pp && 0.0 <= counted.acc <= 100.0
    requires reweighs ==> q != [] && IsWeightedQuery(q, rows, maps, userId, mode)
    ensures var st := if reweighs then WithTotals(counted, q) else counted;
      && Balanced(rows, maps, userId, mode, st) && PpCovered(rows, maps, userId, mode, st.pp)
      && 0.0 <= st.acc <= 100.0 && before.pp <= st.pp
  {
    if reweighs {
      SummedTotals(rows, maps, userId, mode, counted, before.pp, q);
    }
  }

  function WithTotals(st: Stats, q: seq<Performance>): Stats
    requires q != []
  {
    st.(acc := CalculateWeightedAccuracy(q), pp := CalculateWeightedPp(q))
  }

  /** What a submission leaves in anyone's stats. */
  lemma SubmittedStats(site: Site, maps: map<Md5, int>, e: Submission, key: (int, nat))
    requires Admissible(site, maps, e) && key in site.stats
    ensures var st := StatsAfter(site.rows, maps, key.0, key.1, site.stats[key], e.play);
      var reweighs := key == (e.play.userId, e.play.mode) &&
        Reweighs(CalculateStatus(site.rows, e.play), maps[e.play.mapMd5]);
      && (reweighs ==> e.query != [])
      && (reweighs ==> IsWeightedQuery(e.query, Submit(site, maps, e).rows, maps, e.play.userId, e.play.mode))
      && key in Submit(site, maps, e).stats
      && Submit(site, maps, e).stats[key] == (if reweighs then WithTotals(st, e.query) else st)
      && st.pp == site.stats[key].pp && st.acc == site.stats[key].acc
  {
    QueryNotEmpty(site, maps, e);
    TotalsApart(CalculateStatus(site.rows, e.play), site.stats[key], maps[e.play.mapMd5]);
  }

  /** The counters' update leaves the weighted totals alone. */
  lemma TotalsApart(s: Scored, st: Stats, rankedStatus: int)
    ensures ApplyScoreStats(s, st, rankedStatus).pp == st.pp && ApplyScoreStats(s, st, rankedStatus).acc == st.acc
  {
  }

  /** Storing totals summed from the table keeps the counters and covers the table. */
  lemma SummedTotals(rows: seq<Row>, maps: map<Md5, int>, userId: int, mode: nat, st: Stats, pp: int,
                     q: seq<Performance>)
    requires RowsSane(rows) && Balanced(rows, maps, userId, mode, st) && PpCovered(rows, maps, userId, mode, pp)
    requires q != [] && IsWeightedQuery(q, rows, maps, userId, mode)
    ensures var st' := st.(acc := CalculateWeightedAccuracy(q), pp := CalculateWeightedPp(q));
      && Balanced(rows, maps, userId, mode, st')
      && PpCovered(rows, maps, userId, mode, st'.pp)
      && 0.0 <= st'.acc <= 100.0
      && pp <= st'.pp
  {
    QueryCovers(q, rows, maps, userId, mode);
    SummedPpCovered(rows, maps, userId, mode, q);
    AccuracyIsMean(q, 0.0, 100.0);
    BalancedIgnoresTotals(rows, maps, userId, mode, st, CalculateWeightedAccuracy(q), CalculateWeightedPp(q));
  }

  lemma BalancedIgnoresTotals(rows: seq<Row>, maps: map<Md5, int>, userId: int, mode: nat, st: Stats, acc: real, pp: int)
    requires Balanced(rows, maps, userId, mode, st)
    ensures Balanced(rows, maps, userId, mode, st.(acc := acc, pp := pp))
  {
  }

  /** One submission keeps the whole ledger. */
  lemma SubmitKeepsLedger(site: Site, maps: map<Md5, int>, e: Submission)
    requires Ledger(site, maps) && Admissible(site, maps, e)
    ensures var site' := Submit(site, maps, e);
      && Ledger(site', maps) && site'.stats.Keys == site.stats.Keys
      && forall key <- site.stats :: site.stats[key].pp <= site'.stats[key].pp
  {
    UniqueBestKept(site.rows, e.play, |site.rows|);
    BestIsEarliestMaximumKept(site.rows, e.play, |site.rows|);
    RowsSaneKept(site.rows, e.play, |site.rows|);
    var site' := Submit(site, maps, e);
    forall key | key in site.stats
      ensures && Balanced(site'.rows, maps, key.0, key.1, site'.stats[key])
              && PpCovered(site'.rows, maps, key.0, key.1, site'.stats[key].pp)
              && 0.0 <= site'.stats[key].acc <= 100.0
              && site.stats[key].pp <= site'.stats[key].pp
    {
      SubmitKeepsStats(site, maps, e, key);
    }
  }

  /** Over every run the ledger holds, and stored pp only ever rises. */
  lemma {:induction false} RunKeepsLedger(site: Site, maps: map<Md5, int>, run: seq<Submission>)
    requires Ledger(site, maps) && ValidRun(site, maps, run)
    ensures var site' := After(site, maps, run);
      && Ledger(site', maps) && site'.stats.Keys == site.stats.Keys
      && forall key <- site.stats :: site.stats[key].pp <= site'.stats[key].pp
    decreases |run|
  {
    if run != [] {
      SubmitKeepsLedger(site, maps, run[0]);
      RunKeepsLedger(Submit(site, maps, run[0]), maps, run[1..]);
    }
  }

  const ZERO: Stats := Stats(0, 0, 0, 0.0, 0, 0, 0, 0, map[XH := 0, X := 0, SH := 0, S := 0, A := 0])

  /** A new site satisfies the ledger, so every site reached from it does. */
  lemma NewSiteBalanced(maps: map<Md5, int>, players: set<(int, nat)>)
    ensures Ledger(Site([], map key | key in players :: ZERO), maps)
  {
    forall key: (int, nat), q: seq<Performance> | Covers(q, [], maps, key.0, key.1)
      ensures 0 <= CalculateWeightedPp(q)
    {
      assert AtLeast([], 0.0) == 0;
      PpMonotone([], q);
      assert CalculateWeightedPp([]) == 0;
    }
  }

  /** Any two answers to the weighted query give the same pp: the order of ties does not matter. */
  lemma PpOfTableIsUnique(rows: seq<Row>, maps: map<Md5, int>, userId: int, mode: nat,
                          a: seq<Performance>, b: seq<Performance>)
    requires RowsSane(rows) && IsWeightedQuery(a, rows, maps, userId, mode) && IsWeightedQuery(b, rows, maps, userId, mode)
    ensures CalculateWeightedPp(a) == CalculateWeightedPp(b)
  {
    QueryCovers(a, rows, maps, userId, mode);
    QueryCovers(b, rows, maps, userId, mode);
    PpMonotone(a, b);
    PpMonotone(b, a);
  }
}
