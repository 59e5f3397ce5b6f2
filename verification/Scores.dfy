/** Submitted scores: grades, statuses, the scores table and the formulas of a single score. */
module Scores {
  import opened Wrappers
  import opened Weighted

  /** In ascending order; the five from A up are counted on the profile. */
  datatype Grade = N | F | D | C | B | A | S | SH | X | XH

  const COUNTED_GRADES: set<Grade> := {XH, X, SH, S, A}

  /** `grade >= Grade.A` */
  predicate Counted(g: Grade) {
    g in COUNTED_GRADES
  }

  datatype Status = Failed | Submitted | Best

  type Md5 = string

  /** Leaderboard statuses of a beatmap: ranked, approved and loved. */
  predicate HasLeaderboard(rankedStatus: int) {
    rankedStatus in {2, 3, 5}
  }

  /** A play as the client sent it, with the performance points computed for it. */
  datatype Play = Play(
    userId: int, mapMd5: Md5, mode: nat, score: int, maxCombo: int,
    n300: nat, n100: nat, n50: nat, nmiss: nat, ngeki: nat, nkatu: nat,
    grade: Grade, passed: bool, scoreV2: bool, computedPp: real, scoreTime: int, failTime: int, checksum: string)

  /** A row of the scores table. */
  datatype Row = Row(
    id: nat, userId: int, mapMd5: Md5, mode: nat, score: int, pp: real, acc: real, maxCombo: int, hits: int,
    grade: Grade, status: Status, timeElapsed: int, checksum: string)

  /** Who a best score belongs to. */
  datatype Key = Key(userId: int, mapMd5: Md5, mode: nat)

  function KeyOf(r: Row): Key {
    Key(r.userId, r.mapMd5, r.mode)
  }

  predicate Passed(r: Row) {
    !r.status.Failed?
  }

  predicate IsBest(r: Row, key: Key) {
    r.status.Best? && KeyOf(r) == key
  }

  // ---------------------------------------------------------------- one score

  function VanillaMode(mode: nat): nat {
    mode % 4
  }

  function CalculateAccuracy(p: Play): real {
    var n300, n100, n50 := p.n300 as real, p.n100 as real, p.n50 as real;
    var ngeki, nkatu, nmiss := p.ngeki as real, p.nkatu as real, p.nmiss as real;
    match VanillaMode(p.mode)
    case 0 =>
      var total := p.n300 + p.n100 + p.n50 + p.nmiss;
      if total == 0 then 0.0
      else 100.0 * (n300 * 300.0 + n100 * 100.0 + n50 * 50.0) / (total as real * 300.0)
    case 1 =>
      var total := p.n300 + p.n100 + p.nmiss;
      if total == 0 then 0.0 else 100.0 * (n100 * 0.5 + n300) / total as real
    case 2 =>
      var total := p.n300 + p.n100 + p.n50 + p.nkatu + p.nmiss;
      if total == 0 then 0.0 else 100.0 * (n300 + n100 + n50) / total as real
    case _ =>
      var total := p.n300 + p.n100 + p.n50 + p.ngeki + p.nkatu + p.nmiss;
      if total == 0 then 0.0
      else if p.scoreV2 then
        100.0 * (n50 * 50.0 + n100 * 100.0 + nkatu * 200.0 + n300 * 300.0 + ngeki * 305.0) / (total as real * 305.0)
      else
        100.0 * (n50 * 50.0 + n100 * 100.0 + nkatu * 200.0 + (n300 + ngeki) * 300.0) / (total as real * 300.0)
  }

  /** Each mode's accuracy is a percentage. */
  lemma AccuracyIsPercentage(p: Play)
    ensures 0.0 <= CalculateAccuracy(p) <= 100.0
  {
    var n300, n100, n50 := p.n300 as real, p.n100 as real, p.n50 as real;
    var ngeki, nkatu, nmiss := p.ngeki as real, p.nkatu as real, p.nmiss as real;
    var mania := n300 + n100 + n50 + ngeki + nkatu + nmiss;
    match VanillaMode(p.mode)
    case 0 =>
      Percentage(n300 * 300.0 + n100 * 100.0 + n50 * 50.0, (n300 + n100 + n50 + nmiss) * 300.0);
    case 1 =>
      Percentage(n100 * 0.5 + n300, n300 + n100 + nmiss);
    case 2 =>
      Percentage(n300 + n100 + n50, n300 + n100 + n50 + nkatu + nmiss);
    case _ =>
      Percentage(n50 * 50.0 + n100 * 100.0 + nkatu * 200.0 + n300 * 300.0 + ngeki * 305.0, mania * 305.0);
      Percentage(n50 * 50.0 + n100 * 100.0 + nkatu * 200.0 + (n300 + ngeki) * 300.0, mania * 300.0);
  }

  /** What each mode counts, and out of how much; nothing hit or missed is no accuracy at all. */
  lemma AccuracyExactly(p: Play)
    ensures var n300, n100, n50 := p.n300 as real, p.n100 as real, p.n50 as real;
      var ngeki, nkatu, nmiss := p.ngeki as real, p.nkatu as real, p.nmiss as real;
      var osu, acc := n300 + n100 + n50 + nmiss, CalculateAccuracy(p);
      && (p.mode % 4 == 0 ==> IsShare(acc, 6.0 * n300 + 2.0 * n100 + n50, 6.0 * osu))
      && (p.mode % 4 == 1 ==> IsShare(acc, 2.0 * n300 + n100, 2.0 * (n300 + n100 + nmiss)))
      && (p.mode % 4 == 2 ==> IsShare(acc, n300 + n100 + n50, osu + nkatu))
      && (p.mode % 4 == 3 && p.scoreV2 ==>
            IsShare(acc, 61.0 * ngeki + 60.0 * n300 + 40.0 * nkatu + 20.0 * n100 + 10.0 * n50,
                    61.0 * (osu + ngeki + nkatu)))
      && (p.mode % 4 == 3 && !p.scoreV2 ==>
            IsShare(acc, 6.0 * ngeki + 6.0 * n300 + 4.0 * nkatu + 2.0 * n100 + n50, 6.0 * (osu + ngeki + nkatu)))
  {
    var n300, n100, n50 := p.n300 as real, p.n100 as real, p.n50 as real;
    var ngeki, nkatu, nmiss := p.ngeki as real, p.nkatu as real, p.nmiss as real;
    var osu := n300 + n100 + n50 + nmiss;
    var mania := osu + ngeki + nkatu;
    match VanillaMode(p.mode)
    case 0 => Share(n300 * 300.0 + n100 * 100.0 + n50 * 50.0, osu, 300.0, 6.0);
    case 1 => Share(n100 * 0.5 + n300, n300 + n100 + nmiss, 1.0, 2.0);
    case 2 => Share(n300 + n100 + n50, osu + nkatu, 1.0, 1.0);
    case _ =>
      if p.scoreV2 {
        Share(n50 * 50.0 + n100 * 100.0 + nkatu * 200.0 + n300 * 300.0 + ngeki * 305.0, mania, 305.0, 61.0);
      } else {
        Share(n50 * 50.0 + n100 * 100.0 + nkatu * 200.0 + (n300 + ngeki) * 300.0, mania, 300.0, 6.0);
      }
  }

  /** `acc` is the percentage that `part` is of `whole`. */
  predicate IsShare(acc: real, part: real, whole: real) {
    if whole == 0.0 then acc == 0.0 else acc * whole == 100.0 * part
  }

  lemma Share(part: real, count: real, each: real, unit: real)
    requires each > 0.0 && unit > 0.0
    ensures count > 0.0 ==> IsShare(100.0 * part / (count * each), part * (unit / each), unit * count)
    ensures count > 0.0 && each == 1.0 ==> IsShare(100.0 * part / count, part * unit, unit * count)
  {
    if count > 0.0 {
      var acc := 100.0 * part / (count * each);
      assert acc * (count * each) == 100.0 * part;
      assert acc * (unit * count) == (acc * (count * each)) * (unit / each);
    }
  }

  lemma Percentage(part: real, whole: real)
    requires 0.0 <= part <= whole
    ensures whole > 0.0 ==> 0.0 <= 100.0 * part / whole <= 100.0
  {
    if whole > 0.0 {
      var q := 100.0 * part / whole;
      assert q * whole == 100.0 * part;
      Cancel(0.0, q, whole);
      Cancel(q, 100.0, whole);
    }
  }

  /** A score once its submission status is known. */
  datatype Scored = Scored(play: Play, pp: real, acc: real, status: Status, prevBest: Option<Row>, timeElapsed: int)

  /** `calculate_score_submission_status` and `calculate_status`, with the .osu file at hand. */
  function CalculateStatus(rows: seq<Row>, p: Play): Scored {
    var acc := CalculateAccuracy(p);
    if !p.passed then Scored(p, 0.0, acc, Failed, None, p.failTime)
    else
      match BestIndex(rows, Key(p.userId, p.mapMd5, p.mode))
      case Some(k) =>
        Scored(p, p.computedPp, acc, if p.computedPp > rows[k].pp then Best else Submitted, Some(rows[k]), p.scoreTime)
      case None =>
        Scored(p, p.computedPp, acc, Best, None, p.scoreTime)
  }

  // ---------------------------------------------------------------- the table

  /** The first personal best the query finds. */
  function BestIndex(rows: seq<Row>, key: Key): (r: Option<nat>)
    ensures r.Some? ==> r.value < |rows| && IsBest(rows[r.value], key)
    ensures r.None? ==> forall j :: 0 <= j < |rows| ==> !IsBest(rows[j], key)
  {
    if rows == [] then None
    else
      var n := |rows| - 1;
      match BestIndex(rows[..n], key)
      case Some(k) => Some(k)
      case None => if IsBest(rows[n], key) then Some(n) else None
  }

  /** `mark_previous_best_scores_submitted` */
  function MarkSubmitted(rows: seq<Row>, key: Key): (r: seq<Row>)
    ensures |r| == |rows|
    ensures forall i :: 0 <= i < |rows| ==>
      r[i] == if IsBest(rows[i], key) then rows[i].(status := Submitted) else rows[i]
  {
    seq(|rows|, i requires 0 <= i < |rows| => if IsBest(rows[i], key) then rows[i].(status := Submitted) else rows[i])
  }

  function NewRow(s: Scored, id: nat): Row {
    var p := s.play;
    Row(id, p.userId, p.mapMd5, p.mode, p.score, s.pp, s.acc, p.maxCombo, Hits(p), p.grade, s.status,
        s.timeElapsed, p.checksum)
  }

  /** What a play adds to the player's total hits. */
  function Hits(p: Play): int {
    p.n300 + p.n100 + p.n50 + if VanillaMode(p.mode) in {1, 3} then p.ngeki + p.nkatu else 0
  }

  /** `persist_submitted_score`: demote every previous best, then insert. */
  function Persist(rows: seq<Row>, s: Scored, id: nat): seq<Row> {
    (if s.status.Best? then MarkSubmitted(rows, Key(s.play.userId, s.play.mapMd5, s.play.mode)) else rows)
    + [NewRow(s, id)]
  }

  /** The rows behind the weighted totals, in table order; `MapsTable.status >= -2` holds of every known map. */
  function PerformanceRows(rows: seq<Row>, maps: map<Md5, int>, userId: int, mode: nat): seq<Performance> {
    if rows == [] then []
    else
      var n := |rows| - 1;
      PerformanceRows(rows[..n], maps, userId, mode) +
      if CountsForTotals(rows[n], maps, userId, mode) then [Performance(rows[n].pp, rows[n].acc)] else []
  }

  predicate CountsForTotals(r: Row, maps: map<Md5, int>, userId: int, mode: nat) {
    r.userId == userId && r.mode == mode && r.status.Best? && r.mapMd5 in maps && maps[r.mapMd5] >= -2
  }

  /** A result of `fetch_weighted_best_performances`: those rows by descending pp, ties in any order. */
  predicate IsWeightedQuery(q: seq<Performance>, rows: seq<Row>, maps: map<Md5, int>, userId: int, mode: nat) {
    Descending(q) && multiset(q) == multiset(PerformanceRows(rows, maps, userId, mode))
  }

  // ---------------------------------------------------------------- sums over the table

  function Sum(rows: seq<Row>, f: Row -> int): int {
    if rows == [] then 0 else Sum(rows[..|rows| - 1], f) + f(rows[|rows| - 1])
  }

  lemma SumAppend(rows: seq<Row>, r: Row, f: Row -> int)
    ensures Sum(rows + [r], f) == Sum(rows, f) + f(r)
  {
    assert (rows + [r])[..|rows|] == rows;
  }

  lemma {:induction false} SumUpdate(rows: seq<Row>, k: nat, r: Row, f: Row -> int)
    requires k < |rows|
    ensures Sum(rows[k := r], f) == Sum(rows, f) - f(rows[k]) + f(r)
  {
    var n := |rows| - 1;
    if k < n {
      SumUpdate(rows[..n], k, r, f);
      assert rows[k := r][..n] == rows[..n][k := r];
    } else {
      assert rows[k := r][..n] == rows[..n];
    }
  }

  predicate UniqueBest(rows: seq<Row>) {
    forall i, j :: 0 <= i < j < |rows| && rows[i].status.Best? && rows[j].status.Best? ==> KeyOf(rows[i]) != KeyOf(rows[j])
  }

  /** With a single best per key, demoting changes at most that one row. */
  lemma MarkIsUpdate(rows: seq<Row>, key: Key)
    requires UniqueBest(rows)
    ensures MarkSubmitted(rows, key) ==
      match BestIndex(rows, key)
      case Some(k) => rows[k := rows[k].(status := Submitted)]
      case None => rows
  {
  }

  /** How one submission moves any total taken over the table. */
  lemma SumPersist(rows: seq<Row>, p: Play, id: nat, f: Row -> int)
    requires UniqueBest(rows)
    ensures var s := CalculateStatus(rows, p);
      Sum(Persist(rows, s, id), f) == Sum(rows, f) + f(NewRow(s, id)) +
        if s.status.Best? && s.prevBest.Some?
        then f(s.prevBest.value.(status := Submitted)) - f(s.prevBest.value) else 0
  {
    var s := CalculateStatus(rows, p);
    var key := Key(p.userId, p.mapMd5, p.mode);
    MarkIsUpdate(rows, key);
    var before := if s.status.Best? then MarkSubmitted(rows, key) else rows;
    SumAppend(before, NewRow(s, id), f);
    if s.status.Best? && s.prevBest.Some? {
      var k := BestIndex(rows, key).value;
      SumUpdate(rows, k, rows[k].(status := Submitted), f);
    }
  }
}
