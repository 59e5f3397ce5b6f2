/** Concurrent submissions as a state machine: every await is a step boundary, the transaction is one
    step, and the lock is per checksum, not per player. */
module ConcurrentSubmissions {
  import opened Wrappers
  import opened Weighted
  import opened Scores
  import opened Ledger

  datatype Pc = Waiting | Locked | Checked | Calculated(scored: Scored) | Done

  datatype Task = Task(play: Play, pc: Pc)

  /** `locks` maps a checksum to the submission that holds its lock. */
  datatype State = State(rows: seq<Row>, tasks: map<nat, Task>, locks: map<string, nat>)

  datatype Step =
    | Arrive(task: nat, play: Play)
    | Acquire(task: nat)
    | Check(task: nat)
    | Calculate(task: nat)
    | Persisting(task: nat)
    | Fail(task: nat)

  predicate Enabled(s: State, step: Step) {
    match step
    case Arrive(t, _) => t !in s.tasks
    case Acquire(t) => t in s.tasks && s.tasks[t].pc.Waiting? && s.tasks[t].play.checksum !in s.locks
    case Check(t) => t in s.tasks && s.tasks[t].pc.Locked?
    case Calculate(t) => t in s.tasks && s.tasks[t].pc.Checked?
    case Persisting(t) => t in s.tasks && s.tasks[t].pc.Calculated?
    case Fail(t) => t in s.tasks && !s.tasks[t].pc.Waiting? && !s.tasks[t].pc.Done?
  }

  predicate Stored(rows: seq<Row>, checksum: string) {
    exists i :: 0 <= i < |rows| && rows[i].checksum == checksum
  }

  function Move(s: State, t: nat, pc: Pc): State
    requires t in s.tasks
  {
    s.(tasks := s.tasks[t := s.tasks[t].(pc := pc)])
  }

  /** The submission leaves the locked region, by a return or by an exception. */
  function Leave(s: State, t: nat): State
    requires t in s.tasks
  {
    Move(s, t, Done).(locks := s.locks - {s.tasks[t].play.checksum})
  }

  function Next(s: State, step: Step): State
    requires Enabled(s, step)
  {
    match step
    case Arrive(t, play) => s.(tasks := s.tasks[t := Task(play, Waiting)])
    case Acquire(t) => Move(s, t, Locked).(locks := s.locks[s.tasks[t].play.checksum := t])
    case Check(t) => if Stored(s.rows, s.tasks[t].play.checksum) then Leave(s, t) else Move(s, t, Checked)
    case Calculate(t) => Move(s, t, Calculated(CalculateStatus(s.rows, s.tasks[t].play)))
    case Persisting(t) => Leave(s, t).(rows := Persist(s.rows, s.tasks[t].pc.scored, |s.rows|))
    case Fail(t) => Leave(s, t)
  }

  predicate ValidRun(s: State, run: seq<Step>)
    decreases |run|
  {
    run == [] || (Enabled(s, run[0]) && ValidRun(Next(s, run[0]), run[1..]))
  }

  function After(s: State, run: seq<Step>): State
    requires ValidRun(s, run)
    decreases |run|
  {
    if run == [] then s else After(Next(s, run[0]), run[1..])
  }

  // ---------------------------------------------------------------- safety

  predicate DistinctChecksums(rows: seq<Row>) {
    forall i, j :: 0 <= i < j < |rows| ==> rows[i].checksum != rows[j].checksum
  }

  predicate HasBest(rows: seq<Row>, key: Key) {
    exists i :: 0 <= i < |rows| && IsBest(rows[i], key)
  }

  /** Whoever has a passed row for a map and mode has a best one. */
  predicate BestPresent(rows: seq<Row>) {
    forall i :: 0 <= i < |rows| && Passed(rows[i]) ==> HasBest(rows, KeyOf(rows[i]))
  }

  predicate Holds(s: State, t: nat)
    requires t in s.tasks
  {
    s.tasks[t].play.checksum in s.locks && s.locks[s.tasks[t].play.checksum] == t
  }

  /** What a task in the locked region may rely on; its status may be computed from rows since changed. */
  predicate TaskSafe(s: State, t: nat)
    requires t in s.tasks
  {
    var task := s.tasks[t];
    match task.pc
    case Waiting => true
    case Done => true
    case Locked => Holds(s, t)
    case Checked => Holds(s, t) && !Stored(s.rows, task.play.checksum)
    case Calculated(scored) =>
      && Holds(s, t) && !Stored(s.rows, task.play.checksum) && scored.play == task.play
      && (scored.status.Submitted? ==> HasBest(s.rows, Key(task.play.userId, task.play.mapMd5, task.play.mode)))
  }

  ghost predicate Safe(s: State) {
    && DistinctChecksums(s.rows) && UniqueBest(s.rows) && BestPresent(s.rows)
    && forall t <- s.tasks :: TaskSafe(s, t)
  }

  lemma PersistSafe(rows: seq<Row>, scored: Scored, id: nat)
    requires DistinctChecksums(rows) && UniqueBest(rows) && BestPresent(rows)
    requires !Stored(rows, scored.play.checksum)
    requires scored.status.Submitted? ==> HasBest(rows, Key(scored.play.userId, scored.play.mapMd5, scored.play.mode))
    ensures var rows' := Persist(rows, scored, id);
      && DistinctChecksums(rows') && UniqueBest(rows') && BestPresent(rows')
      && (forall key :: HasBest(rows, key) ==> HasBest(rows', key))
      && (forall c :: Stored(rows', c) <==> Stored(rows, c) || c == scored.play.checksum)
  {
    var rows' := Persist(rows, scored, id);
    var n := |rows|;
    assert rows'[n] == NewRow(scored, id);
    forall key | HasBest(rows, key)
      ensures HasBest(rows', key)
    {
      BestStays(rows, scored, id, key);
    }
    forall i | 0 <= i <= n && Passed(rows'[i])
      ensures HasBest(rows', KeyOf(rows'[i]))
    {
      if i < n {
        assert HasBest(rows, KeyOf(rows[i]));
      } else if scored.status.Best? {
        assert IsBest(rows'[n], KeyOf(rows'[n]));
      }
    }
    forall c
      ensures Stored(rows', c) <==> Stored(rows, c) || c == scored.play.checksum
    {
      if i :| 0 <= i < n && rows[i].checksum == c {
        assert rows'[i].checksum == c;
      }
    }
  }

  lemma BestStays(rows: seq<Row>, scored: Scored, id: nat, key: Key)
    requires HasBest(rows, key)
    ensures HasBest(Persist(rows, scored, id), key)
  {
    var rows' := Persist(rows, scored, id);
    var i :| 0 <= i < |rows| && IsBest(rows[i], key);
    if IsBest(rows'[i], key) {
    } else {
      assert IsBest(rows'[|rows|], key);
    }
  }

  lemma StepSafe(s: State, step: Step)
    requires Safe(s) && Enabled(s, step)
    ensures Safe(Next(s, step))
  {
    var s' := Next(s, step);
    match step
    case Persisting(t) =>
      PersistSafe(s.rows, s.tasks[t].pc.scored, |s.rows|);
      forall u | u in s'.tasks
        ensures TaskSafe(s', u)
      {
        if u != t && Holds(s, u) {
          assert s.tasks[u].play.checksum != s.tasks[t].play.checksum;
        }
      }
    case Calculate(t) =>
      var p := s.tasks[t].play;
      var scored := CalculateStatus(s.rows, p);
      if scored.status.Submitted? {
        var k := BestIndex(s.rows, Key(p.userId, p.mapMd5, p.mode)).value;
        assert HasBest(s.rows, Key(p.userId, p.mapMd5, p.mode));
      }
    case _ =>
  }

  /** Over every interleaving: stored checksums stay distinct, and each user, map and mode has at most
      one best row, and has one exactly when it has a passed row. */
  lemma {:induction false} RunSafe(s: State, run: seq<Step>)
    requires Safe(s) && ValidRun(s, run)
    ensures Safe(After(s, run))
    decreases |run|
  {
    if run != [] {
      StepSafe(s, run[0]);
      RunSafe(Next(s, run[0]), run[1..]);
    }
  }

  /** In the locked region. */
  predicate Inside(s: State, t: nat) {
    t in s.tasks && (s.tasks[t].pc.Locked? || s.tasks[t].pc.Checked? || s.tasks[t].pc.Calculated?)
  }

  /** Every lock is held by a submission that is in the locked region for it. */
  ghost predicate NoneLeaked(s: State) {
    forall c <- s.locks :: Inside(s, s.locks[c]) && s.tasks[s.locks[c]].play.checksum == c
  }

  /** What a step changes: its own submission, the lock of its checksum, and the rows only when it stores. */
  lemma StepEffect(s: State, step: Step)
    requires Enabled(s, step)
    ensures var s' := Next(s, step);
      && step.task in s'.tasks && s'.tasks.Keys == s.tasks.Keys + {step.task}
      && (forall t <- s.tasks :: t != step.task ==> s'.tasks[t] == s.tasks[t])
      && (if step.Persisting? then
            && |s'.rows| == |s.rows| + 1
            && s'.rows[|s.rows|].checksum == s.tasks[step.task].pc.scored.play.checksum
            && forall i :: 0 <= i < |s.rows| ==> s'.rows[i] == s.rows[i].(status := s'.rows[i].status)
          else s'.rows == s.rows)
      && var task := s'.tasks[step.task];
         match step
         case Arrive(_, play) => task == Task(play, Waiting) && s'.locks == s.locks
         case Acquire(t) => Inside(s', t) && s'.locks == s.locks[task.play.checksum := t]
         case Check(t) =>
           if exists i :: 0 <= i < |s.rows| && s.rows[i].checksum == task.play.checksum
           then task.pc == Done && s'.locks == s.locks - {task.play.checksum}
           else task.pc == Checked && s'.locks == s.locks
         case Calculate(t) => task.pc == Calculated(CalculateStatus(s.rows, task.play)) && s'.locks == s.locks
         case _ => task.pc == Done && s'.locks == s.locks - {task.play.checksum}
    ensures !step.Arrive? ==> Next(s, step).tasks[step.task].play == s.tasks[step.task].play
  {
  }

  /** No lock outlives its submission's stay in the region, whether that ends well or in an exception. */
  lemma {:induction false} NoLockLeaks(s: State, run: seq<Step>)
    requires NoneLeaked(s) && ValidRun(s, run)
    ensures NoneLeaked(After(s, run))
    decreases |run|
  {
    if run != [] {
      NoneLeaks(s, run[0]);
      NoLockLeaks(Next(s, run[0]), run[1..]);
    }
  }

  lemma NoneLeaks(s: State, step: Step)
    requires NoneLeaked(s) && Enabled(s, step)
    ensures NoneLeaked(Next(s, step))
  {
    var s' := Next(s, step);
    forall c | c in s'.locks
      ensures Inside(s', s'.locks[c]) && s'.tasks[s'.locks[c]].play.checksum == c
    {
      assert c in s.locks ==> Inside(s, s.locks[c]) && s.tasks[s.locks[c]].play.checksum == c;
    }
  }

  lemma EmptySafe()
    ensures Safe(State([], map[], map[]))
  {
  }

  // ---------------------------------------------------------------- what the lock does not give

  /** The player's stats over a run: each transaction applies the status that was calculated before it. */
  function StatsOver(s: State, maps: map<Md5, int>, userId: int, mode: nat, st: Stats, run: seq<Step>): Stats
    requires ValidRun(s, run)
    decreases |run|
  {
    if run == [] then st
    else StatsOver(Next(s, run[0]), maps, userId, mode, StatsStep(s, maps, userId, mode, st, run[0]), run[1..])
  }

  function StatsStep(s: State, maps: map<Md5, int>, userId: int, mode: nat, st: Stats, step: Step): Stats
    requires Enabled(s, step)
  {
    if step.Persisting? then StatsStored(s.tasks[step.task].pc.scored, maps, userId, mode, st) else st
  }

  function StatsStored(scored: Scored, maps: map<Md5, int>, userId: int, mode: nat, st: Stats): Stats {
    var p := scored.play;
    if p.userId == userId && p.mode == mode && p.mapMd5 in maps then ApplyScoreStats(scored, st, maps[p.mapMd5]) else st
  }

  /** Two submissions with different checksums, each checked and its status calculated before either is stored. */
  function Race(t1: nat, p1: Play, t2: nat, p2: Play): seq<Step> {
    [Arrive(t1, p1), Arrive(t2, p2)] + ([Acquire(t1), Acquire(t2)] + ([Check(t1), Check(t2)] +
    ([Calculate(t1), Calculate(t2)] + [Persisting(t1), Persisting(t2)])))
  }

  /** Neither submission has been seen before. */
  predicate CanRace(s: State, t1: nat, p1: Play, t2: nat, p2: Play) {
    && t1 != t2 && t1 !in s.tasks && t2 !in s.tasks && p1.checksum != p2.checksum
    && p1.checksum !in s.locks && p2.checksum !in s.locks
    && !Stored(s.rows, p1.checksum) && !Stored(s.rows, p2.checksum)
  }

  /** The state `s` with both submissions in it. */
  function Racing(s: State, t1: nat, k1: Task, t2: nat, k2: Task, locks: map<string, nat>): State {
    State(s.rows, s.tasks[t1 := k1][t2 := k2], locks)
  }

  lemma TwoSteps(s: State, x: Step, y: Step, rest: seq<Step>, maps: map<Md5, int>, userId: int, mode: nat, st: Stats)
    requires Enabled(s, x) && Enabled(Next(s, x), y) && ValidRun(Next(Next(s, x), y), rest)
    ensures var s2, st1 := Next(Next(s, x), y), StatsStep(s, maps, userId, mode, st, x);
      var st2 := StatsStep(Next(s, x), maps, userId, mode, st1, y);
      && ValidRun(s, [x, y] + rest) && After(s, [x, y] + rest) == After(s2, rest)
      && StatsOver(s, maps, userId, mode, st, [x, y] + rest) == StatsOver(s2, maps, userId, mode, st2, rest)
  {
    var run := [x, y] + rest;
    assert run[1..] == [y] + rest && run[1..][1..] == rest;
    assert ValidRun(Next(s, x), run[1..]);
  }

  /** The last two steps, from statuses calculated of whatever rows. */
  lemma RaceStores(s: State, maps: map<Md5, int>, userId: int, mode: nat, st: Stats, t1: nat, s1: Scored, t2: nat, s2: Scored)
    requires t1 != t2 && t1 in s.tasks && t2 in s.tasks
    requires s.tasks[t1] == Task(s1.play, Calculated(s1)) && s.tasks[t2] == Task(s2.play, Calculated(s2))
    ensures var run, rows := [Persisting(t1), Persisting(t2)], Persist(s.rows, s1, |s.rows|);
      && ValidRun(s, run) && After(s, run).rows == Persist(rows, s2, |rows|)
      && StatsOver(s, maps, userId, mode, st, run) ==
           StatsStored(s2, maps, userId, mode, StatsStored(s1, maps, userId, mode, st))
  {
    var x, y := Persisting(t1), Persisting(t2);
    TwoSteps(s, x, y, [], maps, userId, mode, st);
    assert [x, y] + [] == [x, y];
  }

  /** The race can be run, stores both rows, and applies both statuses to the stats. */
  lemma RaceRuns(s: State, maps: map<Md5, int>, userId: int, mode: nat, st: Stats, t1: nat, p1: Play, t2: nat, p2: Play)
    requires CanRace(s, t1, p1, t2, p2)
    ensures var run, s1, s2 := Race(t1, p1, t2, p2), CalculateStatus(s.rows, p1), CalculateStatus(s.rows, p2);
      var rows := Persist(s.rows, s1, |s.rows|);
      && ValidRun(s, run) && After(s, run).rows == Persist(rows, s2, |rows|)
      && StatsOver(s, maps, userId, mode, st, run) ==
           StatsStored(s2, maps, userId, mode, StatsStored(s1, maps, userId, mode, st))
  {
    var s1, s2 := CalculateStatus(s.rows, p1), CalculateStatus(s.rows, p2);
    StatusIsOf(s.rows, p1);
    StatusIsOf(s.rows, p2);
    RaceRunsWith(s, maps, userId, mode, st, t1, s1, t2, s2);
  }

  lemma StatusIsOf(rows: seq<Row>, p: Play)
    ensures CalculateStatus(rows, p).play == p
  {
  }

  lemma RaceRunsWith(s: State, maps: map<Md5, int>, userId: int, mode: nat, st: Stats, t1: nat, s1: Scored, t2: nat, s2: Scored)
    requires CanRace(s, t1, s1.play, t2, s2.play)
    requires s1 == CalculateStatus(s.rows, s1.play) && s2 == CalculateStatus(s.rows, s2.play)
    ensures var run, rows := Race(t1, s1.play, t2, s2.play), Persist(s.rows, s1, |s.rows|);
      && ValidRun(s, run) && After(s, run).rows == Persist(rows, s2, |rows|)
      && StatsOver(s, maps, userId, mode, st, run) ==
           StatsStored(s2, maps, userId, mode, StatsStored(s1, maps, userId, mode, st))
  {
    var p1, p2 := s1.play, s2.play;
    var locks := s.locks[p1.checksum := t1][p2.checksum := t2];
    var a := Racing(s, t1, Task(p1, Waiting), t2, Task(p2, Waiting), s.locks);
    var b := Racing(s, t1, Task(p1, Locked), t2, Task(p2, Locked), locks);
    var c := Racing(s, t1, Task(p1, Checked), t2, Task(p2, Checked), locks);
    var d := Racing(s, t1, Task(p1, Calculated(s1)), t2, Task(p2, Calculated(s2)), locks);
    RaceStores(d, maps, userId, mode, st, t1, s1, t2, s2);
    var stores := [Persisting(t1), Persisting(t2)];
    RaceCalculates(s, t1, s1, t2, s2, locks);
    TwoSteps(c, Calculate(t1), Calculate(t2), stores, maps, userId, mode, st);
    var calculates := [Calculate(t1), Calculate(t2)] + stores;
    RaceChecks(s, t1, p1, t2, p2, locks);
    TwoSteps(b, Check(t1), Check(t2), calculates, maps, userId, mode, st);
    var checks := [Check(t1), Check(t2)] + calculates;
    RaceAcquires(s, t1, p1, t2, p2);
    TwoSteps(a, Acquire(t1), Acquire(t2), checks, maps, userId, mode, st);
    assert Next(Next(s, Arrive(t1, p1)), Arrive(t2, p2)) == a;
    TwoSteps(s, Arrive(t1, p1), Arrive(t2, p2), [Acquire(t1), Acquire(t2)] + checks, maps, userId, mode, st);
  }

  lemma RaceAcquires(s: State, t1: nat, p1: Play, t2: nat, p2: Play)
    requires CanRace(s, t1, p1, t2, p2)
    ensures var a := Racing(s, t1, Task(p1, Waiting), t2, Task(p2, Waiting), s.locks);
      && Enabled(a, Acquire(t1)) && Enabled(Next(a, Acquire(t1)), Acquire(t2))
      && Next(Next(a, Acquire(t1)), Acquire(t2)) ==
           Racing(s, t1, Task(p1, Locked), t2, Task(p2, Locked), s.locks[p1.checksum := t1][p2.checksum := t2])
  {
  }

  lemma RaceChecks(s: State, t1: nat, p1: Play, t2: nat, p2: Play, locks: map<string, nat>)
    requires CanRace(s, t1, p1, t2, p2)
    ensures var b := Racing(s, t1, Task(p1, Locked), t2, Task(p2, Locked), locks);
      && Enabled(b, Check(t1)) && Enabled(Next(b, Check(t1)), Check(t2))
      && Next(Next(b, Check(t1)), Check(t2)) == Racing(s, t1, Task(p1, Checked), t2, Task(p2, Checked), locks)
  {
  }

  lemma RaceCalculates(s: State, t1: nat, s1: Scored, t2: nat, s2: Scored, locks: map<string, nat>)
    requires t1 != t2 && s1 == CalculateStatus(s.rows, s1.play) && s2 == CalculateStatus(s.rows, s2.play)
    ensures var c := Racing(s, t1, Task(s1.play, Checked), t2, Task(s2.play, Checked), locks);
      && Enabled(c, Calculate(t1)) && Enabled(Next(c, Calculate(t1)), Calculate(t2))
      && Next(Next(c, Calculate(t1)), Calculate(t2)) ==
           Racing(s, t1, Task(s1.play, Calculated(s1)), t2, Task(s2.play, Calculated(s2)), locks)
  {
  }

  // ---------------------------------------------------------------- what the race does to the totals

  /** Both became best on one leaderboard map. */
  predicate Clash(s1: Scored, s2: Scored, maps: map<Md5, int>) {
    && s1.play.mapMd5 == s2.play.mapMd5 && s1.status.Best? && s2.status.Best?
    && s1.play.mapMd5 in maps && HasLeaderboard(maps[s1.play.mapMd5])
  }

  function GradeDelta(s: Scored, g: Grade): int {
    if g in GradeCountDeltas(s) then GradeCountDeltas(s)[g] else 0
  }

  /** The submission changes neither ranked score nor a counted grade. */
  predicate MovesNothing(s: Scored) {
    RankedScoreDelta(s) == 0 && forall g <- COUNTED_GRADES :: GradeDelta(s, g) == 0
  }

  /** Two submissions of one player and mode race. Ranked score and grade counts still equal what the table
      says if and only if the two do not both become best on one leaderboard map, or the one stored first
      would have moved none of them. */
  lemma RaceBalancesExactly(s: State, maps: map<Md5, int>, st: Stats, t1: nat, p1: Play, t2: nat, p2: Play)
    requires CanRace(s, t1, p1, t2, p2) && p1.userId == p2.userId && p1.mode == p2.mode
    requires p1.mapMd5 in maps && p2.mapMd5 in maps
    requires UniqueBest(s.rows) && RankedBalanced(s.rows, maps, p1.userId, p1.mode, st)
    ensures var s1, s2, run := CalculateStatus(s.rows, p1), CalculateStatus(s.rows, p2), Race(t1, p1, t2, p2);
      && ValidRun(s, run)
      && (RankedBalanced(After(s, run).rows, maps, p1.userId, p1.mode,
                         StatsOver(s, maps, p1.userId, p1.mode, st, run)) <==>
            !Clash(s1, s2, maps) || MovesNothing(s1))
  {
    RaceRuns(s, maps, p1.userId, p1.mode, st, t1, p1, t2, p2);
    StatusIsOf(s.rows, p1);
    StatusIsOf(s.rows, p2);
    StaleBalancesExactly(s.rows, maps, st, p1, p2);
  }

  /** The same of any table, with both statuses calculated from it before either score is stored. */
  lemma StaleBalancesExactly(rows: seq<Row>, maps: map<Md5, int>, st: Stats, p1: Play, p2: Play)
    requires p1.userId == p2.userId && p1.mode == p2.mode && p1.mapMd5 in maps && p2.mapMd5 in maps
    requires UniqueBest(rows) && RankedBalanced(rows, maps, p1.userId, p1.mode, st)
    ensures var s1, s2 := CalculateStatus(rows, p1), CalculateStatus(rows, p2);
      var rows1, st1 := Persist(rows, s1, |rows|), ApplyScoreStats(s1, st, maps[p1.mapMd5]);
      var rows2, st2 := Persist(rows1, s2, |rows1|), ApplyScoreStats(s2, st1, maps[p2.mapMd5]);
      RankedBalanced(rows2, maps, p1.userId, p1.mode, st2) <==> !Clash(s1, s2, maps) || MovesNothing(s1)
  {
    StatusIsOf(rows, p1);
    StatusIsOf(rows, p2);
    RankedBalancedKept(rows, maps, p1.userId, p1.mode, st, p1, |rows|);
    UniqueBestKept(rows, p1, |rows|);
    SecondBalancesExactly(rows, maps, ApplyScoreStats(CalculateStatus(rows, p1), st, maps[p1.mapMd5]), p1, p2);
  }

  /** With the first stored and counted. */
  lemma SecondBalancesExactly(rows: seq<Row>, maps: map<Md5, int>, st1: Stats, p1: Play, p2: Play)
    requires p1.userId == p2.userId && p1.mode == p2.mode && p1.mapMd5 in maps && p2.mapMd5 in maps
    requires UniqueBest(rows) && UniqueBest(Persist(rows, CalculateStatus(rows, p1), |rows|))
    requires RankedBalanced(Persist(rows, CalculateStatus(rows, p1), |rows|), maps, p1.userId, p1.mode, st1)
    ensures var s1, s2 := CalculateStatus(rows, p1), CalculateStatus(rows, p2);
      var rows1, st2 := Persist(rows, s1, |rows|), ApplyScoreStats(s2, st1, maps[p2.mapMd5]);
      RankedBalanced(Persist(rows1, s2, |rows1|), maps, p1.userId, p1.mode, st2) <==>
      !Clash(s1, s2, maps) || MovesNothing(s1)
  {
    var s1, s2 := CalculateStatus(rows, p1), CalculateStatus(rows, p2);
    StatusIsOf(rows, p1);
    StatusIsOf(rows, p2);
    var rows1 := Persist(rows, s1, |rows|);
    if !s2.status.Best? {
      OtherStatusBalances(rows1, maps, st1, s2, |rows1|);
    } else if !s1.status.Best? || p1.mapMd5 != p2.mapMd5 {
      StatusUnmoved(rows, s1, p2);
      RankedBalancedKept(rows1, maps, p1.userId, p1.mode, st1, p2, |rows1|);
    } else {
      SameMapBothBest(rows, p1, p2);
      if Clash(s1, s2, maps) {
        ClashBalancesExactly(rows, maps, st1, s1, s2);
      } else {
        UnrankedBalances(rows1, maps, st1, s1, s2);
      }
    }
  }

  /** A score that is not best moves none of these totals, in the table or in the stats. */
  lemma OtherStatusBalances(rows: seq<Row>, maps: map<Md5, int>, st: Stats, s: Scored, id: nat)
    requires !s.status.Best? && s.play.mapMd5 in maps
    requires RankedBalanced(rows, maps, s.play.userId, s.play.mode, st)
    ensures RankedBalanced(Persist(rows, s, id), maps, s.play.userId, s.play.mode,
                           ApplyScoreStats(s, st, maps[s.play.mapMd5]))
  {
    var u, mode := s.play.userId, s.play.mode;
    SumAppend(rows, NewRow(s, id), RankedScore(u, mode, maps));
    forall g | g in COUNTED_GRADES
      ensures Sum(Persist(rows, s, id), GradeCount(u, mode, maps, g)) == Sum(rows, GradeCount(u, mode, maps, g))
    {
      SumAppend(rows, NewRow(s, id), GradeCount(u, mode, maps, g));
    }
  }

  lemma BestIndexExactly(rows: seq<Row>, key: Key, k: nat)
    requires UniqueBest(rows) && k < |rows| && IsBest(rows[k], key)
    ensures BestIndex(rows, key) == Some(k)
  {
  }

  /** Storing a score that is not best, or on another map, leaves a status as it would be calculated. */
  lemma StatusUnmoved(rows: seq<Row>, s1: Scored, p2: Play)
    requires UniqueBest(rows) && UniqueBest(Persist(rows, s1, |rows|))
    requires s1.status.Best? ==> s1.play.mapMd5 != p2.mapMd5
    ensures CalculateStatus(Persist(rows, s1, |rows|), p2) == CalculateStatus(rows, p2)
  {
    var key, rows1 := Key(p2.userId, p2.mapMd5, p2.mode), Persist(rows, s1, |rows|);
    match BestIndex(rows, key)
    case Some(k) =>
      assert rows1[k] == rows[k];
      BestIndexExactly(rows1, key, k);
    case None =>
      assert BestIndex(rows1, key).None?;
  }

  lemma SameMapBothBest(rows: seq<Row>, p1: Play, p2: Play)
    requires UniqueBest(rows) && UniqueBest(Persist(rows, CalculateStatus(rows, p1), |rows|))
    requires p1.userId == p2.userId && p1.mode == p2.mode && p1.mapMd5 == p2.mapMd5
    requires CalculateStatus(rows, p1).status.Best? && CalculateStatus(rows, p2).status.Best?
    ensures var s1, s2 := CalculateStatus(rows, p1), CalculateStatus(rows, p2);
      && KeyOfScored(s1) == KeyOfScored(s2) && s1.prevBest == s2.prevBest && s1.play.passed && s2.play.passed
      && s1.play == p1 && s2.play == p2
  {
  }

  /** What storing the second does to a total over the table: the first's row is demoted. */
  lemma SecondStored(rows: seq<Row>, s1: Scored, s2: Scored, f: Row -> int)
    requires UniqueBest(Persist(rows, s1, |rows|)) && s1.status.Best? && s2.status.Best?
    requires KeyOfScored(s1) == KeyOfScored(s2)
    ensures var n, rows1 := |rows|, Persist(rows, s1, |rows|);
      Sum(Persist(rows1, s2, |rows1|), f) ==
      Sum(rows1, f) - f(NewRow(s1, n)) + f(NewRow(s1, n).(status := Submitted)) + f(NewRow(s2, n + 1))
  {
    SumStalePersist(Persist(rows, s1, |rows|), |rows|, s2, f);
  }

  /** On a map without a leaderboard there is nothing to count. */
  lemma UnrankedBalances(rows1: seq<Row>, maps: map<Md5, int>, st: Stats, s1: Scored, s2: Scored)
    requires rows1 != [] && UniqueBest(rows1) && IsBest(rows1[|rows1| - 1], KeyOfScored(s1))
    requires KeyOfScored(s1) == KeyOfScored(s2) && s2.status.Best?
    requires s1.play.mapMd5 in maps && !HasLeaderboard(maps[s1.play.mapMd5])
    requires RankedBalanced(rows1, maps, s1.play.userId, s1.play.mode, st)
    ensures RankedBalanced(Persist(rows1, s2, |rows1|), maps, s1.play.userId, s1.play.mode,
                           ApplyScoreStats(s2, st, maps[s2.play.mapMd5]))
  {
    var u, mode, k := s1.play.userId, s1.play.mode, |rows1| - 1;
    SumStalePersist(rows1, k, s2, RankedScore(u, mode, maps));
    forall g | g in COUNTED_GRADES
      ensures Sum(Persist(rows1, s2, |rows1|), GradeCount(u, mode, maps, g)) == Sum(rows1, GradeCount(u, mode, maps, g))
    {
      SumStalePersist(rows1, k, s2, GradeCount(u, mode, maps, g));
    }
  }

  /** Both on one leaderboard map: ranked score is right exactly when the first's delta was zero, and each
      grade count exactly when the first's delta in it was. */
  lemma ClashBalancesExactly(rows: seq<Row>, maps: map<Md5, int>, st1: Stats, s1: Scored, s2: Scored)
    requires Clash(s1, s2, maps) && KeyOfScored(s1) == KeyOfScored(s2) && s1.prevBest == s2.prevBest && s2.play.passed
    requires UniqueBest(Persist(rows, s1, |rows|))
    requires RankedBalanced(Persist(rows, s1, |rows|), maps, s1.play.userId, s1.play.mode, st1)
    ensures var rows1, st2 := Persist(rows, s1, |rows|), ApplyScoreStats(s2, st1, maps[s1.play.mapMd5]);
      RankedBalanced(Persist(rows1, s2, |rows1|), maps, s1.play.userId, s1.play.mode, st2) <==> MovesNothing(s1)
  {
    var u, mode, rows1 := s1.play.userId, s1.play.mode, Persist(rows, s1, |rows|);
    var rows2, st2 := Persist(rows1, s2, |rows1|), ApplyScoreStats(s2, st1, maps[s1.play.mapMd5]);
    ClashScore(rows, maps, st1, s1, s2);
    forall g | g in COUNTED_GRADES
      ensures g in st2.grades && (st2.grades[g] == Sum(rows2, GradeCount(u, mode, maps, g)) <==> GradeDelta(s1, g) == 0)
    {
      ClashGrade(rows, maps, st1, s1, s2, g);
    }
    assert st2.grades.Keys == COUNTED_GRADES;
  }

  lemma ClashScore(rows: seq<Row>, maps: map<Md5, int>, st1: Stats, s1: Scored, s2: Scored)
    requires Clash(s1, s2, maps) && KeyOfScored(s1) == KeyOfScored(s2) && s1.prevBest == s2.prevBest && s2.play.passed
    requires UniqueBest(Persist(rows, s1, |rows|))
    requires st1.rscore == Sum(Persist(rows, s1, |rows|), RankedScore(s1.play.userId, s1.play.mode, maps))
    ensures var rows1, rscore := Persist(rows, s1, |rows|), ApplyScoreStats(s2, st1, maps[s1.play.mapMd5]).rscore;
      var f := RankedScore(s1.play.userId, s1.play.mode, maps);
      rscore == Sum(Persist(rows1, s2, |rows1|), f) <==> RankedScoreDelta(s1) == 0
  {
    SecondStored(rows, s1, s2, RankedScore(s1.play.userId, s1.play.mode, maps));
    assert RankedScoreDelta(s2) - RankedScoreDelta(s1) == s2.play.score - s1.play.score;
  }

  /** A grade's delta is one for the new row's grade, less one for the previous best's. */
  lemma GradeDeltaIs(s: Scored, g: Grade)
    requires g in COUNTED_GRADES
    ensures GradeDelta(s, g) ==
      (if s.play.grade == g then 1 else 0) - (if s.prevBest.Some? && s.prevBest.value.grade == g then 1 else 0)
  {
  }

  lemma ClashGrade(rows: seq<Row>, maps: map<Md5, int>, st1: Stats, s1: Scored, s2: Scored, g: Grade)
    requires Clash(s1, s2, maps) && KeyOfScored(s1) == KeyOfScored(s2) && s1.prevBest == s2.prevBest && s2.play.passed
    requires UniqueBest(Persist(rows, s1, |rows|)) && g in COUNTED_GRADES && g in st1.grades
    requires st1.grades[g] == Sum(Persist(rows, s1, |rows|), GradeCount(s1.play.userId, s1.play.mode, maps, g))
    ensures var rows1, st2 := Persist(rows, s1, |rows|), ApplyScoreStats(s2, st1, maps[s1.play.mapMd5]);
      && g in st2.grades
      && (st2.grades[g] == Sum(Persist(rows1, s2, |rows1|), GradeCount(s1.play.userId, s1.play.mode, maps, g)) <==>
            GradeDelta(s1, g) == 0)
  {
    SecondStored(rows, s1, s2, GradeCount(s1.play.userId, s1.play.mode, maps, g));
    GradeDeltaIs(s1, g);
    GradeDeltaIs(s2, g);
    assert ApplyScoreStats(s2, st1, maps[s1.play.mapMd5]).grades[g] == st1.grades[g] + GradeDelta(s2, g);
  }

  /** A best score stored over the best row `k` moves a total by both rows, whatever its status was computed from. */
  lemma SumStalePersist(rows: seq<Row>, k: nat, s: Scored, f: Row -> int)
    requires UniqueBest(rows) && k < |rows| && s.status.Best?
    requires IsBest(rows[k], Key(s.play.userId, s.play.mapMd5, s.play.mode))
    ensures Sum(Persist(rows, s, |rows|), f) ==
            Sum(rows, f) - f(rows[k]) + f(rows[k].(status := Submitted)) + f(NewRow(s, |rows|))
  {
    var key := Key(s.play.userId, s.play.mapMd5, s.play.mode);
    MarkIsUpdate(rows, key);
    SumUpdate(rows, k, rows[k].(status := Submitted), f);
    SumAppend(MarkSubmitted(rows, key), NewRow(s, |rows|), f);
  }

  // ---------------------------------------------------------------- one race that goes wrong

  /** Each passes a map with a leaderboard for the first time, by one player, with different checksums and
      counted grades. */
  predicate FirstPlays(p1: Play, p2: Play, maps: map<Md5, int>) {
    && p1.passed && p2.passed && p1.userId == p2.userId && p1.mode == p2.mode && p1.mapMd5 == p2.mapMd5
    && p1.mapMd5 in maps && HasLeaderboard(maps[p1.mapMd5]) && p1.checksum != p2.checksum
    && p1.grade in COUNTED_GRADES && p2.grade in COUNTED_GRADES && p1.grade != p2.grade
  }

  const EMPTY: State := State([], map[], map[])

  /** Two such plays race on a new server: the player has both scores and both grades, of which the table
      only knows the second. */
  lemma FirstPlaysRace(maps: map<Md5, int>, p1: Play, p2: Play)
    requires FirstPlays(p1, p2, maps)
    ensures var u, mode, run := p1.userId, p1.mode, Race(0, p1, 1, p2);
      && ValidRun(EMPTY, run)
      && var st, rows := StatsOver(EMPTY, maps, u, mode, ZERO, run), After(EMPTY, run).rows;
         && st.rscore == p1.score + p2.score && Sum(rows, RankedScore(u, mode, maps)) == p2.score
         && p1.grade in st.grades && st.grades[p1.grade] == 1 && Sum(rows, GradeCount(u, mode, maps, p1.grade)) == 0
  {
    var u, mode := p1.userId, p1.mode;
    RaceRuns(EMPTY, maps, u, mode, ZERO, 0, p1, 1, p2);
    FirstPlayIsBest(p1);
    FirstPlayIsBest(p2);
    var s1, s2 := CalculateStatus([], p1), CalculateStatus([], p2);
    FirstTwoRows(s1, s2, RankedScore(u, mode, maps));
    FirstTwoRows(s1, s2, GradeCount(u, mode, maps, p1.grade));
    FirstTwoStats(s1, s2, maps[p1.mapMd5]);
  }

  lemma FirstPlayIsBest(p: Play)
    requires p.passed
    ensures var s := CalculateStatus([], p); s.play == p && s.status.Best? && s.prevBest.None?
  {
  }

  lemma FirstTwoStats(s1: Scored, s2: Scored, rankedStatus: int)
    requires HasLeaderboard(rankedStatus) && s1.play.passed && s2.play.passed
    requires s1.status.Best? && s2.status.Best? && s1.prevBest.None? && s2.prevBest.None?
    requires s1.play.grade in COUNTED_GRADES && s2.play.grade != s1.play.grade
    ensures var st := ApplyScoreStats(s2, ApplyScoreStats(s1, ZERO, rankedStatus), rankedStatus);
      && st.rscore == s1.play.score + s2.play.score
      && s1.play.grade in st.grades && st.grades[s1.play.grade] == 1
  {
    GradeDeltaIs(s1, s1.play.grade);
    GradeDeltaIs(s2, s1.play.grade);
    var st1 := ApplyScoreStats(s1, ZERO, rankedStatus);
    assert st1.grades[s1.play.grade] == ZERO.grades[s1.play.grade] + GradeDelta(s1, s1.play.grade);
  }

  lemma FirstTwoRows(s1: Scored, s2: Scored, f: Row -> int)
    requires s1.status.Best? && s2.status.Best? && KeyOfScored(s1) == KeyOfScored(s2)
    ensures var rows := Persist([], s1, 0);
      Sum(Persist(rows, s2, |rows|), f) == f(NewRow(s1, 0).(status := Submitted)) + f(NewRow(s2, 1))
  {
    var rows, demoted := Persist([], s1, 0), NewRow(s1, 0).(status := Submitted);
    assert Persist(rows, s2, 1) == [demoted] + [NewRow(s2, 1)];
    SumAppend([demoted], NewRow(s2, 1), f);
    assert [demoted][..0] == [];
  }

  /** A first pass of map "m" by user 1. */
  function FirstPlay(score: int, grade: Grade, checksum: string): Play {
    Play(1, "m", 0, score, 10, 10, 0, 0, 0, 0, 0, grade, true, false, 50.0, 60000, 0, checksum)
  }

  /** First plays for 100 and 200 points race: ranked score 300 for a best row of 200 points. */
  lemma RaceLosesBalance(p1: Play, p2: Play)
    requires p1 == FirstPlay(100, A, "a") && p2 == FirstPlay(200, S, "b")
    ensures var run, maps := Race(0, p1, 1, p2), map["m" := 2];
      && Safe(EMPTY) && ValidRun(EMPTY, run)
      && var st, rows := StatsOver(EMPTY, maps, 1, 0, ZERO, run), After(EMPTY, run).rows;
         && st.rscore == 300 && Sum(rows, RankedScore(1, 0, maps)) == 200
         && !RankedBalanced(rows, maps, 1, 0, st)
  {
    FirstPlaysRace(map["m" := 2], p1, p2);
  }
}
