/** The submission itself, on the objects it changes: stats in memory, the score, the beatmap and
    the tables; with rollback on an exception at any point of the transaction. */
module Submission {
  import opened Wrappers
  import opened Weighted
  import opened Scores
  import opened Ledger
  import opened SubmissionEffect

  /** The `grades` dict: shared by a shallow copy, duplicated by a deep one. */
  class GradeTable {
    var counts: map<Grade, int>

    constructor (counts: map<Grade, int>)
      ensures this.counts == counts
    {
      this.counts := counts;
    }
  }

  class ModeData {
    var tscore: int
    var rscore: int
    var pp: int
    var acc: real
    var plays: int
    var playtime: int
    var maxCombo: int
    var totalHits: int
    var grades: GradeTable

    constructor (st: Stats, grades: GradeTable)
      ensures this.grades == grades && View() == st.(grades := grades.counts)
    {
      tscore, rscore, pp, acc := st.tscore, st.rscore, st.pp, st.acc;
      plays, playtime, maxCombo, totalHits := st.plays, st.playtime, st.maxCombo, st.totalHits;
      this.grades := grades;
    }

    function View(): Stats
      reads this, grades
    {
      Stats(tscore, rscore, pp, acc, plays, playtime, maxCombo, totalHits, grades.counts)
    }

    /** `copy.copy`: a new object with the same grades dict. */
    method ShallowCopy() returns (c: ModeData)
      ensures fresh(c) && c.View() == View() && c.grades == grades
    {
      c := new ModeData(View(), grades);
    }

    /** `copy.deepcopy` */
    method DeepCopy() returns (c: ModeData)
      ensures fresh(c) && fresh(c.grades) && c.View() == View()
    {
      var g := new GradeTable(grades.counts);
      c := new ModeData(View(), g);
    }
  }

  class Beatmap {
    const id: int
    const md5: Md5
    const rankedStatus: int
    var plays: int
    var passes: int

    constructor (id: int, md5: Md5, rankedStatus: int) {
      this.id, this.md5, this.rankedStatus := id, md5, rankedStatus;
      plays, passes := 0, 0;
    }
  }

  class Player {
    const id: int
    var restricted: bool
    var stats: map<nat, ModeData>
    var recentScores: map<nat, Score?>

    constructor (id: int, restricted: bool, stats: map<nat, ModeData>, recentScores: map<nat, Score?>) {
      this.id, this.restricted, this.stats, this.recentScores := id, restricted, stats, recentScores;
    }
  }

  class Score {
    const play: Play
    const bmap: Beatmap
    const player: Player
    var id: Option<nat>
    var pp: real
    var acc: real
    var status: Status
    var prevBest: Option<Row>
    var timeElapsed: int
    var rank: Option<nat>

    constructor (play: Play, bmap: Beatmap, player: Player)
      ensures this.play == play && this.bmap == bmap && this.player == player && id == None
    {
      this.play, this.bmap, this.player := play, bmap, player;
      id, pp, acc, status, prevBest, timeElapsed, rank := None, 0.0, 0.0, Failed, None, 0, None;
    }

    function AsScored(): Scored
      reads this
    {
      Scored(play, pp, acc, status, prevBest, timeElapsed)
    }

    predicate Consistent() {
      play.userId == player.id && play.mapMd5 == bmap.md5
    }
  }

  /** The tables a submission touches. */
  class Database {
    var scores: seq<Row>
    var stats: map<(int, nat), Stats>
    var maps: map<int, (int, int)>
    const rankedStatuses: map<Md5, int>

    constructor (rankedStatuses: map<Md5, int>) {
      scores, stats, maps := [], map[], map[];
      this.rankedStatuses := rankedStatuses;
    }
  }

  // ---------------------------------------------------------------- status

  /** `placement` is what `calculate_placement` counts over all players. */
  method CalculateSubmissionStatus(db: Database, score: Score, placement: nat)
    modifies score
    ensures score.AsScored() == CalculateStatus(db.scores, score.play)
    ensures score.id == old(score.id)
    ensures score.rank ==
      if score.play.passed && score.bmap.rankedStatus != 0 then Some(placement) else old(score.rank)
  {
    score.acc := CalculateAccuracy(score.play);
    if score.play.passed {
      score.pp := score.play.computedPp;
      var rec := BestIndex(db.scores, Key(score.play.userId, score.play.mapMd5, score.play.mode));
      if rec.Some? {
        var best := db.scores[rec.value];
        score.prevBest := Some(best);
        score.status := if score.pp > best.pp then Best else Submitted;
      } else {
        score.prevBest := None;
        score.status := Best;
      }
      if score.bmap.rankedStatus != 0 {
        score.rank := Some(placement);
      }
      score.timeElapsed := score.play.scoreTime;
    } else {
      score.pp, score.status, score.prevBest := 0.0, Failed, None;
      score.timeElapsed := score.play.failTime;
    }
  }

  // ---------------------------------------------------------------- stats updates

  /** The columns a submission writes; `grades` holds the grade count columns among them. */
  datatype StatsUpdates = StatsUpdates(
    plays: int, playtime: int, tscore: int, totalHits: int, maxCombo: Option<int>, grades: map<Grade, int>,
    rscore: Option<int>, acc: Option<real>, pp: Option<int>)

  function GetOr<T>(o: Option<T>, default: T): T {
    if o.Some? then o.value else default
  }

  /** `StatsRepository.partial_update`: the given columns change and no others do. */
  function PartialUpdate(row: Stats, u: StatsUpdates): Stats {
    Stats(u.tscore, GetOr(u.rscore, row.rscore), GetOr(u.pp, row.pp), GetOr(u.acc, row.acc), u.plays, u.playtime,
          GetOr(u.maxCombo, row.maxCombo), u.totalHits, row.grades + u.grades)
  }

  method ApplyScoreBaseStats(score: Score, stats: ModeData) returns (u: StatsUpdates)
    modifies stats
    ensures stats.grades == old(stats.grades)
    ensures stats.View() == ApplyBase(score.AsScored(), old(stats.View()))
    ensures stats.View() == PartialUpdate(old(stats.View()), u)
    ensures u.maxCombo.None? && u.rscore.None? && u.grades == map[] && u.acc.None? && u.pp.None?
  {
    var p := score.play;
    stats.playtime := stats.playtime + score.timeElapsed / 1000;
    stats.plays := stats.plays + 1;
    stats.tscore := stats.tscore + p.score;
    stats.totalHits := stats.totalHits + p.n300 + p.n100 + p.n50;
    if VanillaMode(p.mode) in {1, 3} {
      stats.totalHits := stats.totalHits + p.ngeki + p.nkatu;
    }
    u := StatsUpdates(stats.plays, stats.playtime, stats.tscore, stats.totalHits, None, map[], None, None, None);
    assert stats.grades.counts + map[] == stats.grades.counts;
  }

  /** Adds each grade delta in place and collects the new counts. */
  method ApplyGradeDeltas(table: GradeTable, deltas: map<Grade, int>) returns (updates: map<Grade, int>)
    requires deltas.Keys <= table.counts.Keys
    modifies table
    ensures table.counts == AddDeltas(old(table.counts), deltas)
    ensures table.counts == old(table.counts) + updates
  {
    updates := map[];
    var todo := deltas.Keys;
    while todo != {}
      invariant todo <= deltas.Keys <= table.counts.Keys == old(table.counts).Keys
      invariant updates.Keys == deltas.Keys - todo
      invariant forall g <- table.counts ::
        table.counts[g] == old(table.counts)[g] + if g in deltas && g !in todo then deltas[g] else 0
      invariant table.counts == old(table.counts) + updates
    {
      var g :| g in todo;
      table.counts := table.counts[g := table.counts[g] + deltas[g]];
      updates := updates[g := table.counts[g]];
      todo := todo - {g};
    }
  }

  method ApplyRankedScoreStats(score: Score, stats: ModeData) returns (grades: map<Grade, int>, rscore: int)
    requires stats.grades.counts.Keys == COUNTED_GRADES
    modifies stats, stats.grades
    ensures stats.grades == old(stats.grades)
    ensures stats.View() == ApplyRanked(score.AsScored(), old(stats.View()))
    ensures stats.View() == old(stats.View()).(grades := old(stats.View()).grades + grades, rscore := rscore)
  {
    grades := ApplyGradeDeltas(stats.grades, GradeCountDeltas(score.AsScored()));
    stats.rscore := stats.rscore + RankedScoreDelta(score.AsScored());
    rscore := stats.rscore;
  }

  /** The written columns cover every field that changed: applying them to a row that agreed with the
      stats gives a row that agrees with the new stats. */
  method ApplyScoreStatsTo(score: Score, stats: ModeData) returns (u: StatsUpdates)
    requires stats.grades.counts.Keys == COUNTED_GRADES
    modifies stats, stats.grades
    ensures stats.grades == old(stats.grades)
    ensures stats.View() == ApplyScoreStats(score.AsScored(), old(stats.View()), score.bmap.rankedStatus)
    ensures stats.View() == PartialUpdate(old(stats.View()), u)
    ensures u.acc.None? && u.pp.None?
  {
    u := ApplyScoreBaseStats(score, stats);
    if !score.play.passed {
      return;
    }
    if score.play.maxCombo > stats.maxCombo {
      stats.maxCombo := score.play.maxCombo;
      u := u.(maxCombo := Some(stats.maxCombo));
    }
    if !HasLeaderboard(score.bmap.rankedStatus) {
      return;
    }
    if score.status.Best? {
      var grades, rscore := ApplyRankedScoreStats(score, stats);
      u := u.(grades := grades, rscore := Some(rscore));
    }
  }

  // ---------------------------------------------------------------- the transaction

  /** Where an exception strikes: each of these is an awaited call inside the transaction, and the last the
      commit that ends it. */
  datatype Fault =
    NoFault | AtFirstPlace | AtDemote | AtInsert | AtFetchBest | AtStatsUpdate | AtMapUpdate | AtAchievements | AtCommit

  ghost predicate Ready(db: Database, score: Score)
    reads db, score.player, score.bmap, score
    reads set m | m in score.player.stats.Values :: m
    reads set m | m in score.player.stats.Values :: m.grades
  {
    var mode := score.play.mode;
    && score.Consistent()
    && mode in score.player.stats
    && score.player.stats[mode].grades.counts.Keys == COUNTED_GRADES
    && (score.player.id, mode) in db.stats && score.bmap.id in db.maps
    && db.stats[(score.player.id, mode)] == score.player.stats[mode].View()
    && db.maps[score.bmap.id] == (score.bmap.plays, score.bmap.passes)
  }

  predicate AnnouncesFirstPlace(score: Score)
    reads score, score.player
  {
    score.status.Best? && HasLeaderboard(score.bmap.rankedStatus) && score.rank == Some(1) && !score.player.restricted
  }

  /** Whether the faulty call is one that this submission makes. */
  predicate Strikes(score: Score, fault: Fault)
    reads score, score.player
  {
    match fault
    case NoFault => false
    case AtFirstPlace => AnnouncesFirstPlace(score)
    case AtDemote => score.status.Best?
    case AtInsert => true
    case AtFetchBest => Reweighs(score.AsScored(), score.bmap.rankedStatus)
    case AtStatsUpdate => true
    case AtMapUpdate => !score.player.restricted
    case AtAchievements => score.play.passed && !score.player.restricted
    case AtCommit => true
  }

  /** `persist_submitted_score` */
  method PersistSubmittedScore(db: Database, score: Score, fault: Fault) returns (ok: bool)
    requires score.Consistent()
    modifies db`scores, score`id
    ensures ok <==> !(fault == AtDemote && score.status.Best?) && fault != AtInsert
    ensures ok ==> db.scores == Persist(old(db.scores), score.AsScored(), |old(db.scores)|)
    ensures ok ==> score.id == Some(|old(db.scores)|)
    ensures score.AsScored() == old(score.AsScored())
  {
    if score.status.Best? {
      if fault == AtDemote {
        return false;
      }
      db.scores := MarkSubmitted(db.scores, Key(score.player.id, score.bmap.md5, score.play.mode));
    }
    if fault == AtInsert {
      return false;
    }
    score.id := Some(|db.scores|);
    db.scores := db.scores + [NewRow(score.AsScored(), |db.scores|)];
    ok := true;
  }

  /** The stats in memory, and the columns to write for them. */
  method UpdateStats(score: Score, stats: ModeData, query: seq<Performance>, fault: Fault)
    returns (ok: bool, previous: ModeData, updates: StatsUpdates)
    requires stats.grades.counts.Keys == COUNTED_GRADES
    requires Reweighs(score.AsScored(), score.bmap.rankedStatus) ==> query != []
    modifies stats, stats.grades
    ensures ok <==> !(fault == AtFetchBest && Reweighs(score.AsScored(), score.bmap.rankedStatus))
    ensures stats.grades == old(stats.grades)
    ensures ok ==>
      && stats.View() == NewStats(score.AsScored(), old(stats.View()), score.bmap.rankedStatus, query)
      && stats.View() == PartialUpdate(old(stats.View()), updates)
      && stats.grades.counts.Keys == COUNTED_GRADES
      && fresh(previous) && previous.grades == stats.grades
      && previous.View() == old(stats.View()).(grades := stats.View().grades)
  {
    previous := stats.ShallowCopy();
    updates := ApplyScoreStatsTo(score, stats);
    if score.play.passed && HasLeaderboard(score.bmap.rankedStatus) && score.status.Best? {
      if fault == AtFetchBest {
        return false, previous, updates;
      }
      stats.acc := CalculateWeightedAccuracy(query);
      stats.pp := CalculateWeightedPp(query);
      updates := updates.(acc := Some(stats.acc), pp := Some(stats.pp));
    }
    ok := true;
  }

  /** The beatmap's counters and their row, in memory and in the table; a restricted player's play is not counted. */
  twostate predicate PlayCounted(db: Database, score: Score)
    reads db, score.bmap
  {
    var counts := if old(score.player.restricted) then 0 else 1;
    && score.bmap.plays == old(score.bmap.plays) + counts
    && score.bmap.passes == old(score.bmap.passes) + (if score.play.passed then counts else 0)
    && db.maps == old(db.maps)[score.bmap.id := (score.bmap.plays, score.bmap.passes)]
  }

  /** `persist_score_submission_stats`. `previous` is the shallow copy: the old numbers over the grades
      dict that is then updated in place. */
  method PersistStats(db: Database, score: Score, query: seq<Performance>, fault: Fault)
    returns (ok: bool, previous: ModeData)
    requires Ready(db, score)
    requires Reweighs(score.AsScored(), score.bmap.rankedStatus) ==> query != []
    modifies db`stats, db`maps, score.bmap
    modifies score.player.stats[score.play.mode], score.player.stats[score.play.mode].grades
    ensures ok <==> !(fault in {AtFetchBest, AtStatsUpdate, AtMapUpdate} && Strikes(score, fault))
    ensures ok ==> Ready(db, score)
    ensures ok ==>
      var mode, stats := score.play.mode, score.player.stats[score.play.mode];
      && stats.grades == old(stats.grades)
      && stats.View() == NewStats(score.AsScored(), old(stats.View()), score.bmap.rankedStatus, query)
      && db.stats == old(db.stats)[(score.player.id, mode) := stats.View()]
      && previous.grades == stats.grades
      && previous.View() == old(stats.View()).(grades := stats.View().grades)
    ensures ok ==> PlayCounted(db, score)
  {
    var stats := score.player.stats[score.play.mode];
    var updates;
    ok, previous, updates := UpdateStats(score, stats, query, fault);
    if !ok || fault == AtStatsUpdate {
      return false, previous;
    }
    var row := (score.player.id, score.play.mode);
    db.stats := db.stats[row := PartialUpdate(db.stats[row], updates)];
    ok := CountPlay(db, score, fault);
  }

  /** The beatmap's counters, in memory and then in its row. */
  method CountPlay(db: Database, score: Score, fault: Fault) returns (ok: bool)
    requires score.bmap.id in db.maps && db.maps[score.bmap.id] == (score.bmap.plays, score.bmap.passes)
    modifies db`maps, score.bmap
    ensures ok <==> score.player.restricted || fault != AtMapUpdate
    ensures ok ==> PlayCounted(db, score)
  {
    ok := true;
    if !score.player.restricted {
      score.bmap.plays := score.bmap.plays + 1;
      if score.play.passed {
        score.bmap.passes := score.bmap.passes + 1;
      }
      if fault == AtMapUpdate {
        return false;
      }
      db.maps := db.maps[score.bmap.id := (score.bmap.plays, score.bmap.passes)];
    }
  }

  /** The statements of the transaction, in order. On `!ok` some of them have happened. */
  method Transact(db: Database, score: Score, query: seq<Performance>, fault: Fault)
    returns (ok: bool, previous: ModeData?)
    requires Ready(db, score)
    requires Reweighs(score.AsScored(), score.bmap.rankedStatus) ==> query != []
    modifies db, score`id, score.bmap
    modifies score.player.stats[score.play.mode], score.player.stats[score.play.mode].grades
    ensures score.AsScored() == old(score.AsScored())
    ensures ok <==> !Strikes(score, fault)
    ensures ok ==> Ready(db, score)
    ensures ok ==>
      && db.scores == Persist(old(db.scores), score.AsScored(), |old(db.scores)|)
      && score.id == Some(|old(db.scores)|)
    ensures ok ==>
      var mode, stats := score.play.mode, score.player.stats[score.play.mode];
      && stats.grades == old(stats.grades)
      && stats.View() == NewStats(score.AsScored(), old(stats.View()), score.bmap.rankedStatus, query)
      && db.stats == old(db.stats)[(score.player.id, mode) := stats.View()]
      && previous != null && previous.grades == stats.grades
      && previous.View() == old(stats.View()).(grades := stats.View().grades)
    ensures ok ==> PlayCounted(db, score)
  {
    if AnnouncesFirstPlace(score) && fault == AtFirstPlace {
      return false, null;
    }
    ok := PersistSubmittedScore(db, score, fault);
    if !ok {
      return false, null;
    }
    ok, previous := PersistStats(db, score, query, fault);
    if !ok {
      return false, previous;
    }
    if score.play.passed && !score.player.restricted && fault == AtAchievements {
      return false, previous;
    }
    ok := fault != AtCommit;
  }

  // ---------------------------------------------------------------- snapshot and rollback

  datatype Snapshot = Snapshot(
    scoreId: Option<nat>, stats: ModeData, beatmapPlays: int, beatmapPasses: int,
    hadRecentScore: bool, recentScore: Score?)

  method CaptureState(score: Score) returns (s: Snapshot)
    requires score.play.mode in score.player.stats
    ensures s.scoreId == score.id && s.beatmapPlays == score.bmap.plays && s.beatmapPasses == score.bmap.passes
    ensures fresh(s.stats) && fresh(s.stats.grades)
    ensures s.stats.View() == score.player.stats[score.play.mode].View()
    ensures s.hadRecentScore == (score.play.mode in score.player.recentScores)
    ensures s.hadRecentScore ==> s.recentScore == score.player.recentScores[score.play.mode]
  {
    var mode := score.play.mode;
    var stats := score.player.stats[mode].DeepCopy();
    s := Snapshot(score.id, stats, score.bmap.plays, score.bmap.passes, mode in score.player.recentScores,
                  if mode in score.player.recentScores then score.player.recentScores[mode] else null);
  }

  /** `raised` is the assertion on a recent score that was there but None. */
  method RestoreState(score: Score, s: Snapshot) returns (raised: bool)
    modifies score`id, score.bmap, score.player
    ensures score.id == s.scoreId && score.bmap.plays == s.beatmapPlays && score.bmap.passes == s.beatmapPasses
    ensures score.player.stats == old(score.player.stats)[score.play.mode := s.stats]
    ensures raised <==> s.hadRecentScore && s.recentScore == null
    ensures score.player.restricted == old(score.player.restricted)
    ensures score.player.recentScores ==
      if raised then old(score.player.recentScores)
      else if s.hadRecentScore then old(score.player.recentScores)[score.play.mode := s.recentScore]
      else old(score.player.recentScores) - {score.play.mode}
  {
    var mode := score.play.mode;
    score.id := s.scoreId;
    score.player.stats := score.player.stats[mode := s.stats];
    score.bmap.plays := s.beatmapPlays;
    score.bmap.passes := s.beatmapPasses;
    raised := false;
    if s.hadRecentScore {
      if s.recentScore == null {
        return true;
      }
      score.player.recentScores := score.player.recentScores[mode := s.recentScore];
    } else {
      score.player.recentScores := score.player.recentScores - {mode};
    }
  }

  datatype Outcome = Persisted | RolledBack | RolledBackThenAssertionError | Duplicate

  /** On success the tables and the objects agree on the new values; on an exception everywhere they
      agree on the old ones. The rollback itself ends in an AssertionError exactly when the player has
      no recent score in the mode yet. */
  method PersistScoreSubmission(db: Database, score: Score, query: seq<Performance>, fault: Fault)
    returns (outcome: Outcome, previous: ModeData?)
    requires Ready(db, score)
    requires Reweighs(score.AsScored(), score.bmap.rankedStatus) ==> query != []
    modifies db, score`id, score.bmap, score.player
    modifies score.player.stats[score.play.mode], score.player.stats[score.play.mode].grades
    ensures score.AsScored() == old(score.AsScored()) && score.player.restricted == old(score.player.restricted)
    ensures Ready(db, score)
    ensures outcome == Persisted <==> !old(Strikes(score, fault))
    ensures outcome == RolledBackThenAssertionError <==>
      && old(Strikes(score, fault)) && score.play.mode in old(score.player.recentScores)
      && old(score.player.recentScores)[score.play.mode] == null
    ensures outcome != Duplicate
    ensures outcome == Persisted ==>
      && db.scores == Persist(old(db.scores), score.AsScored(), |old(db.scores)|)
      && score.id == Some(|old(db.scores)|)
      && score.player.stats == old(score.player.stats)
    ensures outcome == Persisted ==>
      var mode, stats := score.play.mode, old(score.player.stats[score.play.mode]);
      && stats.View() == NewStats(score.AsScored(), old(stats.View()), score.bmap.rankedStatus, query)
      && db.stats == old(db.stats)[(score.player.id, mode) := stats.View()]
      && previous != null && previous.grades == stats.grades == old(stats.grades)
      && previous.View() == old(stats.View()).(grades := stats.View().grades)
    ensures outcome == Persisted ==> PlayCounted(db, score)
    ensures outcome != Persisted ==>
      && db.scores == old(db.scores) && db.stats == old(db.stats) && db.maps == old(db.maps)
      && score.id == old(score.id)
      && score.bmap.plays == old(score.bmap.plays) && score.bmap.passes == old(score.bmap.passes)
      && score.player.recentScores == old(score.player.recentScores)
    ensures outcome != Persisted ==>
      var mode := score.play.mode;
      && score.player.stats == old(score.player.stats)[mode := score.player.stats[mode]]
      && fresh(score.player.stats[mode]) && fresh(score.player.stats[mode].grades)
      && score.player.stats[mode].View() == old(score.player.stats[mode].View())
  {
    var snapshot := CaptureState(score);
    var scores, stats, maps := db.scores, db.stats, db.maps;
    var ok;
    ok, previous := Transact(db, score, query, fault);
    if ok {
      return Persisted, previous;
    }
    outcome := RollBack(db, score, snapshot, scores, stats, maps);
  }

  /** The transaction's changes to the tables are undone, and then the objects restored. */
  method RollBack(db: Database, score: Score, snapshot: Snapshot, scores: seq<Row>, stats: map<(int, nat), Stats>,
                  maps: map<int, (int, int)>) returns (outcome: Outcome)
    requires score.Consistent() && snapshot.stats.grades.counts.Keys == COUNTED_GRADES
    requires (score.player.id, score.play.mode) in stats && score.bmap.id in maps
    requires stats[(score.player.id, score.play.mode)] == snapshot.stats.View()
    requires maps[score.bmap.id] == (snapshot.beatmapPlays, snapshot.beatmapPasses)
    requires snapshot.hadRecentScore == (score.play.mode in score.player.recentScores)
    requires snapshot.hadRecentScore ==> snapshot.recentScore == score.player.recentScores[score.play.mode]
    modifies db, score`id, score.bmap, score.player
    ensures Ready(db, score)
    ensures db.scores == scores && db.stats == stats && db.maps == maps
    ensures outcome == if snapshot.hadRecentScore && snapshot.recentScore == null then RolledBackThenAssertionError else RolledBack
    ensures score.id == snapshot.scoreId
    ensures score.bmap.plays == snapshot.beatmapPlays && score.bmap.passes == snapshot.beatmapPasses
    ensures score.player.stats == old(score.player.stats)[score.play.mode := snapshot.stats]
    ensures score.player.restricted == old(score.player.restricted)
    ensures score.player.recentScores == old(score.player.recentScores)
  {
    db.scores, db.stats, db.maps := scores, stats, maps;
    var raised := RestoreState(score, snapshot);
    outcome := if raised then RolledBackThenAssertionError else RolledBack;
  }

  /** The duplicate check, the status and the transaction. */
  method CheckAndPersist(db: Database, score: Score, placement: nat, query: seq<Performance>, fault: Fault)
    returns (outcome: Outcome, previous: ModeData?)
    requires Ready(db, score)
    requires !IsStored(db, score.play.checksum) ==>
               Reweighs(CalculateStatus(db.scores, score.play), score.bmap.rankedStatus) ==> query != []
    modifies db, score, score.bmap, score.player
    modifies score.player.stats[score.play.mode], score.player.stats[score.play.mode].grades
    ensures Ready(db, score)
    ensures outcome == Duplicate <==> old(IsStored(db, score.play.checksum))
    ensures outcome == Persisted <==> !old(IsStored(db, score.play.checksum)) && !Strikes(score, fault)
    ensures outcome == Persisted ==>
      var s := CalculateStatus(old(db.scores), score.play);
      && (Reweighs(s, score.bmap.rankedStatus) ==> query != [])
      && db.scores == Persist(old(db.scores), s, |old(db.scores)|)
      && db.stats == old(db.stats)[(score.player.id, score.play.mode) :=
           NewStats(s, old(db.stats)[(score.player.id, score.play.mode)], score.bmap.rankedStatus, query)]
    ensures outcome == Persisted ==> PlayCounted(db, score)
    ensures outcome != Persisted ==> db.scores == old(db.scores) && db.stats == old(db.stats) && db.maps == old(db.maps)
  {
    if IsStored(db, score.play.checksum) {
      return Duplicate, null;
    }
    CalculateSubmissionStatus(db, score, placement);
    outcome, previous := PersistScoreSubmission(db, score, query, fault);
  }

  predicate IsStored(db: Database, checksum: string)
    reads db
  {
    exists r <- db.scores :: r.checksum == checksum
  }

  /** The tables as the ledger sees them. */
  function SiteOf(db: Database): Site
    reads db
  {
    Site(db.scores, db.stats)
  }

  /** The beatmap at hand has the status that its row has. */
  predicate StatusKnown(db: Database, score: Score) {
    score.bmap.md5 in db.rankedStatuses && score.bmap.rankedStatus == db.rankedStatuses[score.bmap.md5]
  }

  /** The locked region of `submit_score`. `query` is the database's answer for the weighted totals. What a
      success leaves in the tables credits the play and nothing else, and is the ledger's step; so the ledger is
      kept whatever the outcome, and neither anyone's stored pp nor the player's in memory falls. */
  method SubmitLocked(db: Database, score: Score, placement: nat, query: seq<Performance>, fault: Fault)
    returns (outcome: Outcome, previous: ModeData?)
    requires Ready(db, score) && StatusKnown(db, score)
    requires !IsStored(db, score.play.checksum) ==>
               Admissible(SiteOf(db), db.rankedStatuses, Ledger.Submission(score.play, query))
    modifies db, score, score.bmap, score.player
    modifies score.player.stats[score.play.mode], score.player.stats[score.play.mode].grades
    ensures Ready(db, score)
    ensures outcome == Duplicate <==> old(IsStored(db, score.play.checksum))
    ensures outcome == Persisted <==> !old(IsStored(db, score.play.checksum)) && !Strikes(score, fault)
    ensures outcome == Persisted ==>
      SiteOf(db) == Submit(old(SiteOf(db)), db.rankedStatuses, Ledger.Submission(score.play, query))
    ensures outcome == Persisted && old(UniqueBest(db.scores)) ==>
      Credited(old(SiteOf(db)), db.rankedStatuses, Ledger.Submission(score.play, query), SiteOf(db))
    ensures outcome == Persisted ==> PlayCounted(db, score)
    ensures outcome != Persisted ==> SiteOf(db) == old(SiteOf(db)) && db.maps == old(db.maps)
    ensures old(Ledger.Ledger(SiteOf(db), db.rankedStatuses)) ==>
      && Ledger.Ledger(SiteOf(db), db.rankedStatuses)
      && (forall key <- old(db.stats) :: key in db.stats && old(db.stats)[key].pp <= db.stats[key].pp)
      && old(score.player.stats[score.play.mode].pp) <= score.player.stats[score.play.mode].pp
  {
    ghost var site, e := SiteOf(db), Ledger.Submission(score.play, query);
    ghost var statuses := db.rankedStatuses;
    ghost var stored := IsStored(db, score.play.checksum);
    if !stored {
      QueryNotEmpty(site, statuses, e);
    }
    outcome, previous := CheckAndPersist(db, score, placement, query, fault);
    if !stored && UniqueBest(site.rows) {
      SubmitCredits(site, statuses, e);
    }
    if !stored && Ledger.Ledger(site, statuses) {
      SubmitKeepsLedger(site, statuses, e);
    }
  }
}
