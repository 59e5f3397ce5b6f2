/** What a submission does to the tables, read off them before and after: the row stored, the row it
    displaces, and each number of the player's stats. */
module SubmissionEffect {
  import opened Wrappers
  import opened Weighted
  import opened Scores
  import opened Ledger

  /** A personal best of the player on that map and mode. */
  predicate Held(r: Row, p: Play) {
    r.status.Best? && r.userId == p.userId && r.mapMd5 == p.mapMd5 && r.mode == p.mode
  }

  /** The play betters every personal best there is; so does the first play that passes. */
  predicate Betters(rows: seq<Row>, p: Play) {
    p.passed && forall j :: 0 <= j < |rows| && Held(rows[j], p) ==> rows[j].pp < p.computedPp
  }

  /** The row that stores the play. */
  predicate Stores(rows: seq<Row>, p: Play, r: Row) {
    && r.id == |rows| && r.userId == p.userId && r.mapMd5 == p.mapMd5 && r.mode == p.mode
    && r.score == p.score && r.maxCombo == p.maxCombo && r.grade == p.grade && r.checksum == p.checksum
    && r.acc == CalculateAccuracy(p)
    && r.pp == (if p.passed then p.computedPp else 0.0)
    && r.timeElapsed == (if p.passed then p.scoreTime else p.failTime)
    && r.hits == p.n300 + p.n100 + p.n50 + (if p.mode % 4 == 1 || p.mode % 4 == 3 then p.ngeki + p.nkatu else 0)
    && (r.status.Failed? <==> !p.passed)
    && (r.status.Best? <==> Betters(rows, p))
  }

  /** Every earlier row stays, except that a new best demotes the old one. */
  predicate Demotes(rows: seq<Row>, p: Play, rows': seq<Row>)
    requires |rows'| == |rows| + 1
  {
    forall j :: 0 <= j < |rows| ==>
      rows'[j] == if Betters(rows, p) && Held(rows[j], p) then rows[j].(status := Submitted) else rows[j]
  }

  /** The counters that every play moves. */
  predicate Counts(p: Play, r: Row, st: Stats, st': Stats) {
    && st'.plays == st.plays + 1
    && st'.tscore == st.tscore + p.score
    && st'.playtime == st.playtime + r.timeElapsed / 1000
    && st'.totalHits == st.totalHits + r.hits
    && st'.maxCombo == if p.passed && p.maxCombo > st.maxCombo then p.maxCombo else st.maxCombo
  }

  /** A new best on a leaderboard map moves ranked score and grades by what it replaces. */
  predicate Replaces(rows: seq<Row>, p: Play, st: Stats, st': Stats) {
    && ((forall j :: 0 <= j < |rows| ==> !Held(rows[j], p)) ==>
          && st'.rscore == st.rscore + p.score
          && GradesMove(st.grades, st'.grades, p.grade, None))
    && forall j :: 0 <= j < |rows| && Held(rows[j], p) ==>
         && st'.rscore == st.rscore + p.score - rows[j].score
         && GradesMove(st.grades, st'.grades, p.grade, Some(rows[j].grade))
  }

  predicate GradesMove(grades: map<Grade, int>, grades': map<Grade, int>, gained: Grade, lost: Option<Grade>) {
    && grades'.Keys == grades.Keys
    && forall g <- grades ::
         grades'[g] == grades[g] + (if g == gained then 1 else 0) - (if lost == Some(g) then 1 else 0)
  }

  /** The totals summed again over the weighted list. */
  predicate Resums(q: seq<Performance>, st': Stats) {
    var total := DecayedPp(q) + 416.6667 * BonusShare(|q|);
    && total - 0.5 <= st'.pp as real <= total + 0.5
    && IsMean(st'.acc, DecayedAcc(q), DecayedOnes(|q|))
  }

  /** The player's stats in the mode. Without a new best on a leaderboard map only the counters move. */
  predicate Moves(rows: seq<Row>, rankedStatus: int, p: Play, q: seq<Performance>, r: Row, st: Stats, st': Stats) {
    && Counts(p, r, st, st')
    && if Betters(rows, p) && (rankedStatus == 2 || rankedStatus == 3 || rankedStatus == 5)
       then Replaces(rows, p, st, st') && Resums(q, st')
       else st'.rscore == st.rscore && st'.grades == st.grades && st'.acc == st.acc && st'.pp == st.pp
  }

  /** The whole effect: one row more, the player's stats in the mode, and nobody else's. */
  predicate Credited(site: Site, maps: map<Md5, int>, e: Submission, site': Site) {
    var key := (e.play.userId, e.play.mode);
    && |site'.rows| == |site.rows| + 1
    && Stores(site.rows, e.play, site'.rows[|site.rows|])
    && Demotes(site.rows, e.play, site'.rows)
    && key in site.stats && e.play.mapMd5 in maps
    && site'.stats.Keys == site.stats.Keys
    && (forall k <- site.stats :: k != key ==> site'.stats[k] == site.stats[k])
    && Moves(site.rows, maps[e.play.mapMd5], e.play, e.query, site'.rows[|site.rows|], site.stats[key], site'.stats[key])
  }

  // ---------------------------------------------------------------- the list that is summed

  /** How many of the player's bests on known maps have this pp and accuracy. */
  function Occurrences(rows: seq<Row>, maps: map<Md5, int>, userId: int, mode: nat, x: Performance): nat {
    if rows == [] then 0
    else
      Occurrences(rows[1..], maps, userId, mode, x) +
      if rows[0].userId == userId && rows[0].mode == mode && rows[0].status.Best?
         && rows[0].mapMd5 in maps && maps[rows[0].mapMd5] >= -2 && rows[0].pp == x.pp && rows[0].acc == x.acc
      then 1 else 0
  }

  lemma {:induction false} OccurrencesAppend(rows: seq<Row>, r: Row, maps: map<Md5, int>, userId: int, mode: nat,
                                             x: Performance)
    ensures Occurrences(rows + [r], maps, userId, mode, x) ==
      Occurrences(rows, maps, userId, mode, x) + Occurrences([r], maps, userId, mode, x)
  {
    if rows == [] {
      assert [r][1..] == [];
    } else {
      assert (rows + [r])[1..] == rows[1..] + [r];
      OccurrencesAppend(rows[1..], r, maps, userId, mode, x);
    }
  }

  lemma {:induction false} PerformancesAreBests(rows: seq<Row>, maps: map<Md5, int>, userId: int, mode: nat, x: Performance)
    ensures multiset(PerformanceRows(rows, maps, userId, mode))[x] == Occurrences(rows, maps, userId, mode, x)
  {
    if rows != [] {
      var n := |rows| - 1;
      PerformancesAreBests(rows[..n], maps, userId, mode, x);
      OccurrencesAppend(rows[..n], rows[n], maps, userId, mode, x);
      assert rows == rows[..n] + [rows[n]];
      assert [rows[n]][1..] == [];
    }
  }

  /** The list summed holds each of the player's bests on known maps as often as the table does, best first. */
  lemma QueryListsBests(q: seq<Performance>, rows: seq<Row>, maps: map<Md5, int>, userId: int, mode: nat, x: Performance)
    requires IsWeightedQuery(q, rows, maps, userId, mode)
    ensures multiset(q)[x] == Occurrences(rows, maps, userId, mode, x)
    ensures forall i, j :: 0 <= i <= j < |q| ==> q[i].pp >= q[j].pp
  {
    PerformancesAreBests(rows, maps, userId, mode, x);
  }

  // ---------------------------------------------------------------- proofs

  /** What is known of a play once its status is. */
  ghost predicate Judged(rows: seq<Row>, p: Play, s: Scored) {
    && s.play == p && s.acc == CalculateAccuracy(p)
    && s.pp == (if p.passed then p.computedPp else 0.0)
    && s.timeElapsed == (if p.passed then p.scoreTime else p.failTime)
    && (s.status.Failed? <==> !p.passed)
    && (s.status.Best? <==> Betters(rows, p))
    && (forall j :: 0 <= j < |rows| && Held(rows[j], p) && p.passed ==> s.prevBest == Some(rows[j]))
    && (s.prevBest.Some? ==> exists j :: 0 <= j < |rows| && Held(rows[j], p))
  }

  lemma StatusJudges(rows: seq<Row>, p: Play)
    requires UniqueBest(rows)
    ensures Judged(rows, p, CalculateStatus(rows, p))
  {
    forall j | 0 <= j < |rows|
      ensures Held(rows[j], p) <==> IsBest(rows[j], Key(p.userId, p.mapMd5, p.mode))
    {
    }
  }

  lemma PersistStores(rows: seq<Row>, p: Play, s: Scored)
    requires Judged(rows, p, s)
    ensures var rows' := Persist(rows, s, |rows|);
      |rows'| == |rows| + 1 && Stores(rows, p, rows'[|rows|]) && Demotes(rows, p, rows')
  {
  }

  lemma DeltasReplace(rows: seq<Row>, p: Play, s: Scored, st: Stats)
    requires Judged(rows, p, s) && p.passed && st.grades.Keys == COUNTED_GRADES
    ensures Replaces(rows, p, st, ApplyRanked(s, st))
  {
  }

  lemma TotalsResum(q: seq<Performance>, st: Stats)
    requires q != []
    ensures Resums(q, WithTotals(st, q))
  {
    PpIsDecayedSum(q);
    AccuracyIsDecayedMean(q);
  }

  lemma StatsMove(rows: seq<Row>, rankedStatus: int, p: Play, q: seq<Performance>, s: Scored, st: Stats)
    requires Judged(rows, p, s) && st.grades.Keys == COUNTED_GRADES
    requires Reweighs(s, rankedStatus) ==> q != []
    ensures Moves(rows, rankedStatus, p, q, NewRow(s, |rows|), st, NewStats(s, st, rankedStatus, q))
  {
    if Reweighs(s, rankedStatus) {
      TotalsResum(q, ApplyScoreStats(s, st, rankedStatus));
      var counted := ApplyBase(s, st);
      DeltasReplace(rows, p, s, if p.maxCombo > counted.maxCombo then counted.(maxCombo := p.maxCombo) else counted);
    }
  }

  /** A submission credits the play and nothing else. */
  lemma SubmitCredits(site: Site, maps: map<Md5, int>, e: Submission)
    requires Admissible(site, maps, e) && UniqueBest(site.rows)
    requires site.stats[(e.play.userId, e.play.mode)].grades.Keys == COUNTED_GRADES
    ensures Credited(site, maps, e, Submit(site, maps, e))
  {
    var p, s := e.play, CalculateStatus(site.rows, e.play);
    StatusJudges(site.rows, p);
    PersistStores(site.rows, p, s);
    QueryNotEmpty(site, maps, e);
    StatsMove(site.rows, maps[p.mapMd5], p, e.query, s, site.stats[(p.userId, p.mode)]);
  }
}
