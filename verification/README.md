# bancho.py, modelled and proved in Dafny

This project models the stateful core of the bancho.py game server and proves what it is relied on for.
`dafny verify dfyconfig.toml` checks everything.

## What is here

**Score submission.** A submission decides whether a score is a player's best on a map, demotes the previous
best, stores the row, moves the player's counters by deltas, and re-sums the weighted totals.

- `Scores.dfy` has a play, its status and accuracy, and the operations on the scores table as functions.
- `Weighted.dfy` has the weighted sums over real numbers, proved to be the sums that decay from the best play on:
  accuracy is a weighted mean, and pp is monotone in the list.
- `Ledger.dfy` is the main result for one player's submissions that do not overlap: after every run the
  incrementally kept counters equal a recomputation from the table, each map's best row is the earliest maximum,
  and stored pp never falls.
- `SubmissionEffect.dfy` says what one submission changes, read off the tables before and after.
- `Submission.dfy` has the objects: stats with a grades dict that is updated in place, a shallow and a deep copy
  of them, the column-wise write, and the rollback. Faults may strike at any statement of the transaction.
  What the locked region leaves in the tables is proved to be that effect and the ledger's step.
- `ConcurrentSubmissions.dfy` has every interleaving of submissions under the per-checksum lock. When two of one player
  race, so that both statuses are calculated before either score is stored, ranked score and grade counts stay right
  exactly under a stated condition; one race that fails it is given step by step.

**Multiplayer session.** Players, sixteen-slot matches, instanced channels and spectator links.

- `Multiplayer.dfy` has the rules of one match as functions on its state, and the objects whose methods do the
  same to fields and slots in place.
- `Sessions.dfy` has the whole session as one value and its seventeen kinds of step; `SessionServer.dfy` has the
  server object with its lists, whose handlers are proved to do those steps to the objects.
- `MatchSafety.dfy` proves what every action keeps of a single match: seats, the freemods partition, the scrim ledger.
- `MatchEffects.dfy`, `SessionEffects.dfy` and `SeatEffects.dfy` say of each action and each step exactly when it does
  anything, what it changes, and that it leaves everything else alone.
- `SeatSafety.dfy` proves the invariant that needs no assumption on clients: nobody is in two slots, and the
  record's writer cannot fail.
- `ChannelSafety.dfy` proves channel membership and spectator links symmetric.
- `SessionSafety.dfy` and `SessionRuns.dfy` prove the invariant under a stated protocol: a match is listed
  exactly while someone sits in it, its host and referees are among them, and nothing in the code can raise.
  Given that requests come from players who are online and that new objects are new, a step keeps the session in
  order if and only if it is within the conduct expected of clients, kind of step by kind of step.
- `OrderlyServer.dfy` concludes the same on the server object: it starts in order, and every request within that conduct
  is served without an exception and leaves it in order.
- `ReopenedSlot.dfy` has a run, from the start of the server, at whose end a player cannot leave their match.
- `AwaitSubmissions.dfy` has the wait for the scores of a scrim's play: how long it takes, who is accounted for, and how
  a slot that changes hands loses its player.

**Wire codec.** `Bytes.dfy`, `Primitives.dfy`, `MatchRecord.dfy` and `Packets.dfy` have little-endian integers,
unsigned LEB128 (section 7.6 of DWARF Version 5), strings, the data-dependent match record and packet framing, as
writers and readers proved against encoding and parsing functions that are proved to invert each other.
`WireState.dfy` joins the codec to the session: what the record's writer asserts is what the session keeps.

**Smaller machines.** `Clans.dfy` has clan ownership across two tables and the online sessions; `BeatmapSets.dfy`
has the reconciliation of a cached beatmap set with the osu!api.

## How to read it

Where the code changes fields step by step, a class has those fields and its methods are proved to leave a state that
a function names (`ensures Result(View(), ok, sends) == Act(old(View()), ...)`); the properties are then lemmas about
that function, over every input and every run. An exception is an `ok` that is false, or an outcome value; where it
leaves a half-done change behind, so does the model.

Python floats are reals, and `round` rounds half to even. Python integers are integers; the widths that the wire
format imposes are written out. Strings are their UTF-8 bytes in the codec and opaque elsewhere. A mod or privilege
set is the set of its bit numbers. SQL tables are sequences or maps, and a transaction is undone as a whole.

Assumptions, each a precondition or a parameter where it is used:

- A play's pp is an arbitrary non-negative number, and its map's .osu file is at hand; each map's leaderboard
  status stays the same.
- Requests about the session come from connected players; a user has one session; the objects a step creates are new.
- The password check, the silence, the tournament manager privilege and the arrival of scores are parameters.
- Every packet handler reads exactly the length its packet states.
- Every user id, mod set and seed is a 31-bit number where a record is claimed to be read back unchanged.

Where the code and its documentation differ, the model follows the code:

- `awards_ranked_pp` is true of every map with a leaderboard (app/objects/beatmap.py:248-261), so loved maps count
  for ranked score and grades, though the comment at app/services/score_submission.py:694-699 says they do not.
- `restore_score_submission_state` ends in an AssertionError when the player has no recent score in the mode yet
  (app/services/score_submission.py:593-595); by then stats, counters and the score's id have been restored.
- A comment says that the chat has been removed once a match is empty (app/objects/player.py:676-677); it has not
  while tournament clients are still in it.
- A match created by a player who already has one is listed with nobody in it (app/api/domains/cho.py:1424-1429).
- MATCH_LOCK twice, and `!mp unlock`, reopen a slot under the player in it (app/api/domains/cho.py:1536-1550,
  app/commands.py:1727-1735); the next to join there takes the slot over.
- The index on the scores table's checksum column is not unique, so a stored duplicate is prevented by the lock alone.

## Model

| member | source | states |
|---|---|---|
| Ledger.RunKeepsLedger | app/services/score_submission.py:600-727 | over every run of submissions that do not overlap, counters, ranked score and grade counts equal a recomputation from the table, and nobody's stored pp ever falls |
| Ledger.SubmitKeepsLedger | app/services/score_submission.py:861-894 | one submission keeps all of that, for the submitter and everyone else |
| Ledger.BalancedKept | app/services/score_submission.py:600-713 | the deltas that a submission adds in memory are those that storing its row makes to the table's sums |
| Ledger.RankedScoreMoves | app/services/score_submission.py:620-625 | ranked score summed over the best rows on leaderboard maps moves by exactly the delta the code adds |
| Ledger.GradeCountMoves | app/services/score_submission.py:628-642 | so does the number of best rows with each counted grade, also when the grade stays the same |
| Ledger.MaxComboKept | app/services/score_submission.py:685-687 | the stored combo stays the largest of the player's passed rows |
| Ledger.BestIsEarliestMaximumKept | app/objects/score.py:321-352 | each (user, map, mode) with a passed row has a best one, of maximal pp, and the earliest among equals |
| Ledger.UniqueBestKept | app/repositories/scores.py:518-535 | never two best rows for one (user, map, mode) |
| Ledger.MoreAboveThreshold | app/services/score_submission.py:382-421 | a submission leaves no fewer best rows above any pp threshold |
| Ledger.PpCoveredKept | app/services/score_submission.py:723-727 | the stored pp is at most what the table would give, even when a map's best changed without a re-sum |
| Ledger.PpOfTableIsUnique | app/repositories/scores.py:537-557 | the order in which the query returns ties does not change the pp |
| Ledger.NewSiteBalanced | app/services/score_submission.py:600-617 | a new server satisfies the ledger |
| SubmissionEffect.SubmitCredits | app/services/score_submission.py:382-421 | what one submission changes, number by number: the row stored and the one it demotes, each counter, ranked score and grades by what is replaced, pp to within one half of the decayed sum and accuracy as the decayed mean; nobody else's stats move |
| SubmissionEffect.QueryListsBests | app/repositories/scores.py:537-557 | the list summed holds the player's best rows on known maps, each as often as the table does, best first |
| Weighted.AccuracyIsMean | app/services/score_submission.py:716-720 | overall accuracy lies between any bounds on the accuracies in the list, whatever its length |
| Weighted.AccuracyIsDecayedMean | app/services/score_submission.py:716-720 | it is the sum in which each accuracy counts for 95% of the one before, over the same sum of as many ones |
| Weighted.WeightSum | app/services/score_submission.py:718-719 | the geometric weights sum to the reciprocal of the bonus factor |
| Weighted.PpMonotone | app/services/score_submission.py:723-727 | a list with no fewer entries above every threshold gives no less pp, after rounding too |
| Weighted.PpIsDecayedSum | app/services/score_submission.py:723-727 | the stored pp is the best play in full, 95% of what the others are worth likewise, and the bonus, to the nearest integer and at halves to the even one |
| Weighted.PpBetween | app/services/score_submission.py:723-727 | bounds on the plays' pp bound that sum by as many weights, whatever its length |
| Weighted.Dominates | app/repositories/scores.py:543-554 | such a list, sorted, is at least as good at every position |
| Scores.AccuracyIsPercentage | app/objects/score.py:354-416 | every mode's accuracy is between 0 and 100 |
| Scores.AccuracyExactly | app/objects/score.py:354-416 | what each mode counts, in the smallest whole numbers, out of how much; nothing hit or missed gives zero |
| Scores.SumPersist | app/services/score_submission.py:382-421 | what storing a score does to any sum over the table: its own row in, the demoted best re-counted |
| Submission.ApplyGradeDeltas | app/services/score_submission.py:664-676 | the grades dict is changed in place by the deltas, and the collected columns hold its new values |
| Submission.ApplyScoreStatsTo | app/services/score_submission.py:679-713 | writing just the returned columns to a row that agreed with the old stats makes it agree with the new |
| Submission.PersistStats | app/services/score_submission.py:785-859 | on success memory and row agree on every column; the shallow copy keeps the old numbers but shares the grades |
| Submission.CaptureState | app/services/score_submission.py:566-578 | the snapshot shares nothing with the live stats |
| Submission.RestoreState | app/services/score_submission.py:581-597 | what is restored, and that the assertion fails exactly for a recent score that is there but None |
| Submission.PersistScoreSubmission | app/services/score_submission.py:861-894 | success stores row, stats and counters alike in memory and tables; a fault at any statement or at the commit leaves both as they were |
| Submission.SubmitLocked | app/services/score_submission.py:968-1008 | it stores exactly when the checksum is new and no fault strikes; what a success leaves in the tables credits the play and nothing else, pp and accuracy being the decayed sum and mean, and counts it on the beatmap; whatever the outcome the ledger is kept, and no pp in the tables or in memory falls |
| ConcurrentSubmissions.RunSafe | app/services/score_submission.py:968-1008 | over every interleaving no two rows share a checksum, and each (user, map, mode) has at most one best row, and one exactly when it has a passed row |
| ConcurrentSubmissions.StepSafe | app/services/score_submission.py:970-979 | every single step of any submission keeps that, also with a status from stale data |
| ConcurrentSubmissions.StepEffect | app/services/score_submission.py:968-1008 | a step moves its own submission and no other, rows change only when one is stored, and a duplicate leaves at once |
| ConcurrentSubmissions.NoLockLeaks | app/services/score_submission.py:968-1008 | over every run each lock is held by a submission in the locked region, exceptions included |
| ConcurrentSubmissions.RaceBalancesExactly | app/services/score_submission.py:664-711 | when two submissions of one player race, ranked score and every grade count stay right if and only if they are not both best on one leaderboard map, or the first stored would have moved none of them |
| ConcurrentSubmissions.RaceRuns | app/services/score_submission.py:970-1004 | the race is a run of the machine's own steps: both check, both calculate, both store |
| ConcurrentSubmissions.RaceLosesBalance | app/services/score_submission.py:671-711 | one such run from an empty server: 300 ranked score for a best row of 200 |
| ConcurrentSubmissions.SumStalePersist | app/services/score_submission.py:386-394 | demote-all-then-insert replaces the best row that is there now, not the one the status was computed from |
| Primitives.WriteUleb128 | app/packets.py:569-582 | the loop over seven-bit groups gives the LEB128 encoding |
| Primitives.UlebShape | app/packets.py:569-582 | all bytes but the last have the top bit, their low seven bits spell the number, and there are no more than it takes |
| Primitives.UlebReads | app/packets.py:464-474 | a length ends at the first byte without the top bit, and the read raises when there is none |
| Primitives.UlebRoundTrip | app/packets.py:464-474 | every natural number is read back, and what follows is left |
| Primitives.StringRoundTrip | app/packets.py:455-478 | so is every string, the empty one included |
| Primitives.StringLayout | app/packets.py:455-478 | the bytes of short strings, and what is read of a cut or differently marked one |
| Primitives.HiddenStringReadsEmpty | app/packets.py:644-652 | a withheld password reads as empty |
| Primitives.SignedRoundTrip | app/packets.py:388-428 | signed integers of each width are read back |
| Bytes.ToLEDigit | app/packets.py:388-428 | integers are written least significant byte first |
| Primitives.BanchoPacketReader.ReadString | app/packets.py:455-478 | the reader's loop consumes what the parse says, and raises when it runs out |
| MatchRecord.WriteMatch | app/packets.py:639-675 | the writer finishes exactly when every field is in range and every slot whose status has a player has one |
| MatchRecord.RecordLayout | app/packets.py:639-675 | the fields in the order of the wire, slot mods only under freemods and a withheld password as an empty string |
| MatchRecord.ReadMatch | app/packets.py:499-531 | the reader's steps agree with the parse of its view |
| MatchRecord.MatchRoundTrip | app/packets.py:499-531 | decode after encode, with any bytes following left untouched |
| MatchRecord.RecordIsExact | app/packets.py:499-531 | with the password sent, the fields come back unchanged if and only if they fit the signed types they are read with |
| MatchRecord.IdsRoundTrip | app/packets.py:517-519 | ids come back for just the slots whose status has a player, in order |
| Packets.Write | app/packets.py:730-744 | a packet is written exactly when its id, arguments and size fit, and then as one frame |
| Packets.FrameLayout | app/packets.py:730-744 | two bytes of id, one of padding, four of size, and the payload |
| Packets.NextPacket | app/packets.py:337-367 | the skip loop stops, raises or hands over as the parse of the remaining bytes says, and terminates |
| Packets.ReadAll | app/packets.py:337-374 | reading to the end delivers what the parse of the body says |
| Packets.StreamIsSplit | app/packets.py:337-367 | any concatenation of frames is split back into its packets in order, unmapped ones skipped |
| Packets.DeliveredExactly | app/packets.py:337-367 | the loop raises if and only if some packet's id is unknown to the enumeration, and delivers every mapped packet if and only if none comes after the first such one; what it delivers is always the first of them |
| Packets.PacketQueue.Dequeue | app/objects/player.py:1010-1017 | dequeuing hands over everything enqueued, in order, and empties the queue |
| Packets.QueueConserves | app/objects/player.py:1006-1017 | over every run of enqueues and dequeues no byte is lost, duplicated or reordered |
| Packets.SentStreamIsSplit | app/objects/player.py:1006-1017 | packets enqueued and sent in any portions are read back one by one |
| WireState.WriterNeverAsserts | app/packets.py:662-665 | a sound match is always encodable: the writer's assertion is implied by the session's invariant |
| WireState.EveryStateIsWritable | app/objects/match.py:297-306 | in every reachable state, with no assumption on clients, every match can be written |
| WireState.StateRoundTrip | app/packets.py:639-675 | a client that reads a match's state gets the ids of exactly the players in slots whose status has one, the match's own fields, and the password only when it is sent |
| WireState.StatusBits | app/objects/match.py:36-46 | the mask on the status byte is true of exactly the statuses the session treats as having a player |
| WireState.ModsValueTellsApart | app/constants/mods.py:13-45 | different sets of mods are different integers |
| WireState.ModsBits | app/constants/mods.py:13-45 | bit by bit, the integer is the set |
| Multiplayer.Slot.CopyFrom | app/objects/match.py:100-104 | loaded and skipped are not copied |
| Multiplayer.Slot.Reset | app/objects/match.py:106-112 | a slot as new, but for the given status |
| Multiplayer.Match.GetSlotId | app/objects/match.py:248-254 | the first slot with the player, or none when no slot has them |
| Multiplayer.Match.FindFree | app/objects/match.py:256-262 | the first open slot, occupied or not |
| Multiplayer.Match.UnreadyPlayers | app/objects/match.py:308-312 | exactly the slots in the expected state become not ready |
| Multiplayer.Match.StartPlay | app/objects/match.py:320-334 | occupied slots with the map play, every other slot keeps its status, and the match is in progress |
| Multiplayer.Match.SetTeamType | app/commands.py:1756-1768 | occupied slots change side with the team type |
| Multiplayer.Match.SwitchStatus | app/commands.py:1715-1735 | locking and unlocking all slots of one status |
| Multiplayer.Match.EnableFreemods | app/api/domains/cho.py:1575-1587 | slot mods take the part that does not change speed, the match keeps the rest |
| Multiplayer.Match.DisableFreemods | app/api/domains/cho.py:1588-1601 | the host's slot mods come back to the match, and it raises without a host slot after the flag is cleared |
| Multiplayer.Match.ChangeSlot | app/api/domains/cho.py:1478-1501 | moving to an open slot, or nothing |
| Multiplayer.Match.LockSlot | app/api/domains/cho.py:1518-1552 | locked slots reopen, the host's is spared, others lock under their player |
| Multiplayer.Match.ChangeSettings | app/api/domains/cho.py:1556-1681 | freemods, map and team type changes in the handler's order |
| Multiplayer.Match.CompletePlay | app/api/domains/cho.py:1722-1759 | the play ends with the last playing slot |
| Multiplayer.Match.SetMods | app/api/domains/cho.py:1773-1795 | the host moves the match's speed-changing mods, everyone their own slot's others |
| Multiplayer.Match.StartCommand | app/commands.py:1420-1501 | the four forms of the start command, a timer left alone when one runs |
| Multiplayer.Match.FireTimer | app/commands.py:1440-1480 | a timer starts the match only while the one who set it is still in it |
| Multiplayer.Match.Abort | app/commands.py:1505-1517 | an abort ends the play and changes nothing otherwise |
| Multiplayer.Match.NameHost | app/commands.py:1613-1633 | only someone in the match becomes host |
| Multiplayer.Match.AddReferee | app/commands.py:1666-1683 | only someone in the match becomes referee |
| Multiplayer.Match.StartScrim | app/commands.py:1828-1857 | a scrim starts for an odd best-of below sixteen when none runs, after the range check |
| Multiplayer.Match.SetScrim | app/commands.py:1833-1856 | with points to win a scrim starts, without any the running one is cancelled |
| Multiplayer.Match.RestartScrim | app/commands.py:1873-1905 | a rematch restarts a scrim or takes the last point back |
| Multiplayer.Match.Pick | app/commands.py:2043-2095 | a pool pick turns freemods off and clears the slots |
| Multiplayer.Match.UpdateMatchpoints | app/objects/match.py:402-545 | on the fields: nothing without scores, None when at least two sides are all level, and else a point for the first of the highest, the end of the scrim, or the assertion on the winner's kind |
| Multiplayer.Decide | app/objects/match.py:438-446 | the first of the highest scores, and whether at least two are all equal |
| Multiplayer.PointAwardedGoes | app/objects/match.py:438-530 | None is appended exactly when there are two entries or more and no two differ; otherwise the leader's points rise by one, every other side's stay, and points enough end the scrim |
| Multiplayer.Match.Perform | app/commands.py:1372-1400 | every packet and command about a match, with who may give it, does what the rules say |
| MatchEffects.NotAllowed | app/commands.py:1372-1400 | what is not allowed changes nothing, and raises exactly without a host |
| MatchEffects.StartMatchStarts | app/api/domains/cho.py:1685-1694 | the host's start makes exactly those play who have the map, changes nothing else of their slots, and no other slot |
| MatchEffects.StartCommandStarts | app/commands.py:1420-1501 | so does a forced start, and a plain one when no timer runs and nobody is not ready; the other forms only set or clear the timer |
| MatchEffects.TimerStarts | app/commands.py:1451-1464 | so does the timer, when its setter sits in the match, and it is gone after |
| MatchEffects.CompleteEnds | app/api/domains/cho.py:1722-1759 | whoever completes waits while others play; after the last no slot plays or is complete, and those that were are not ready |
| MatchEffects.AbortEnds | app/commands.py:1505-1517 | an abort unreadies those who play and nobody else |
| MatchEffects.OwnSlotChanges | app/api/domains/cho.py:1505-1516 | ready, map, loaded, skip and team packets change their one field of the player's own slot |
| MatchEffects.AwayRaises | app/api/domains/cho.py:1505-1516 | from a player without a slot they raise with nothing changed |
| MatchEffects.ChangeSlotMoves | app/api/domains/cho.py:1478-1501 | the player ends in the requested slot as they were and the old one is empty; a request for one's own reopened slot gives the seat up |
| MatchEffects.LockToggles | app/api/domains/cho.py:1518-1552 | one slot's status changes, and the host's own is spared |
| MatchEffects.AllLock | app/commands.py:1715-1735 | all open slots lock, or all locked ones open |
| MatchEffects.HostMoves | app/commands.py:1613-1633 | host goes to whoever sits in the slot, or to the player named if they sit in one |
| MatchEffects.RefereesChange | app/commands.py:1666-1703 | exactly who is a referee after either command |
| MatchEffects.ModsChange | app/api/domains/cho.py:1769-1799 | whose mods change and to which part of those asked for |
| MatchEffects.FreemodsCommandTurns | app/commands.py:1575-1609 | what each slot and the match have after freemods go on or off |
| MatchEffects.PickSets | app/commands.py:2043-2095 | the match has the pool's mods, and the slots none if freemods were on |
| MatchEffects.TeamsChange | app/commands.py:1739-1776 | everyone's side follows the team type, and a running scrim loses its points |
| MatchEffects.SettingsChange | app/api/domains/cho.py:1556-1681 | freemods first; then readiness, team type and sides, slot by slot, unless a scrim holds the team type |
| MatchEffects.ScrimStarts | app/commands.py:1818-1857 | for which numbers a scrim starts, and that it takes a majority |
| MatchEffects.ScrimStops | app/commands.py:1861-1869 | points and winners go, and nothing when none runs |
| MatchEffects.RematchUndoes | app/commands.py:1873-1905 | exactly one point is taken back, from the last winner |
| MatchSafety.ActSound | app/objects/match.py:86-112 | no action, whoever sends it, puts a player in two slots, leaves a player's status without a player, or a playing slot in a match not in progress |
| MatchSafety.TidyKeptExactly | app/api/domains/cho.py:1536-1550 | an action leaves an open slot occupied if and only if it reopens a slot under its player |
| MatchSafety.ActSeats | app/api/domains/cho.py:1478-1501 | actions keep the occupants, a seated host and seated referees |
| MatchSafety.ActReturns | app/api/domains/cho.py:1505-1516 | no assertion on a slot can fail while the acting player and the host are seated |
| MatchSafety.ActConforms | app/api/domains/cho.py:1575-1601 | every action keeps the freemods partition |
| MatchSafety.EnablingPreservesMods | app/api/domains/cho.py:1577-1587 | switching freemods on changes nobody's effective mods |
| MatchSafety.OnThenOffRestores | app/commands.py:1575-1609 | on and off again gives the match back as it was |
| MatchSafety.CreatedConforming | app/api/domains/cho.py:1404-1422 | a created match conforms if and only if the client's mods fit its freemods flag |
| MatchSafety.ActKeepsScrim | app/commands.py:1818-1905 | every action keeps: points count occurrences among the winners, and nobody has enough while a scrim runs |
| MatchSafety.PointKeepsLedger | app/objects/match.py:438-530 | so does a point, and the scrim ends on exactly the point that is enough |
| MatchSafety.PointKeepsCounts | app/objects/match.py:445-447 | points and winners move together even when a point comes late |
| MatchSafety.TeamScrimIsShort | app/objects/match.py:518-530 | a two-team best of n runs with fewer than n points that are not ties |
| MatchSafety.CancelBranchIsDead | app/commands.py:1828-1856 | the guard of the branch that cancels a scrim would be met by a best-of of minus two or minus one alone, and the range check lets neither through |
| MatchSafety.PointKeptExactly | app/objects/match.py:402-545 | points that come in at any time: they return exactly when the winner is of the team type's kind, and keep the ledger exactly when a scrim runs that they fit, or they win it |
| MatchSafety.LatePointExactly | app/objects/match.py:438-530 | a fitting play scored after its scrim keeps the ledger exactly when nobody scored, or one point wins |
| SeatSafety.RunSeated | app/objects/player.py:597-707 | over every run, with no assumption on clients, matches are sound and an occupant's match is theirs |
| SeatSafety.StepSeated | app/objects/player.py:597-707 | every step keeps that, even one that raises part-way |
| SeatSafety.OneSeat | app/objects/player.py:597-650 | so nobody is in two slots, of one match or of two |
| ChannelSafety.JoinChannelKeeps | app/objects/player.py:709-745 | players and channels name each other once each after a join |
| ChannelSafety.LeaveChannelKeeps | app/objects/player.py:747-778 | and after leaving, which never raises, and takes one player out of one channel |
| ChannelSafety.LeaveKeepsListing | app/objects/channel.py:123-131 | an occupied instanced channel is listed, once |
| ChannelSafety.LeaveChannelsKeeps | app/objects/player.py:414-416 | the logout loop ends, with no channel left and nobody else moved |
| ChannelSafety.AddSpectatorKeeps | app/objects/player.py:780-818 | links stay symmetric, and every spectator is in the host's channel |
| ChannelSafety.RemoveSpectatorKeeps | app/objects/player.py:820-848 | neither the list removal nor the assertion on the channel can fail |
| ChannelSafety.StartSpectatingKeeps | app/api/domains/cho.py:1048-1078 | changing hosts keeps all of that |
| SessionEffects.JoinChannelExactly | app/objects/player.py:709-745 | a join succeeds exactly for a player outside the channel who may read it, and for the lobby is in the lobby; then both lists end with the other |
| SessionEffects.LeaveChannelExactly | app/objects/player.py:747-778 | when leaving returns, and the three lists after it |
| SessionEffects.NamedChannelSteps | app/api/domains/cho.py:1894-1906 | a name means the first channel listed under it, or nothing happens |
| SessionEffects.AddSpectatorExactly | app/objects/player.py:780-818 | the channel that is used or made, and who watches whom after |
| SessionEffects.RemoveSpectatorExactly | app/objects/player.py:820-848 | who no longer watches, and that the host leaves the channel with the last spectator |
| SessionEffects.SpectateSteps | app/api/domains/cho.py:1044-1090 | the old host is left before the new one is joined, and the same one is kept |
| SessionSafety.ActOrderlyExactly | app/api/domains/cho.py:1518-1552 | an action in a match never raises, and keeps the session in order if and only if it reopens no occupied slot |
| SeatEffects.InMatchStep | app/api/domains/cho.py:1505-1516 | an action changes the player's match as its rules say and nothing else, and raises where they do or for a state that cannot be sent |
| SessionSafety.PartOrderlyExactly | app/api/domains/cho.py:2060-2079 | leaving a channel keeps it in order if and only if the player neither watches from it nor plays in it |
| SessionSafety.SpectateOrderly | app/api/domains/cho.py:1044-1078 | spectating takes nobody out of a match's channel |
| SessionSafety.TimerOrderly | app/commands.py:1440-1480 | a timer going off never raises, also after its match was closed |
| SeatEffects.TimerStep | app/commands.py:1451-1464 | it starts the play exactly when its setter still sits in the match |
| SessionSafety.ScoredOrderlyExactly | app/api/domains/cho.py:1755-1759 | scoring a play, however late, keeps the session in order if and only if its point fits the scrim as it then is |
| SeatEffects.ScoredStep | app/objects/match.py:402-545 | it moves that match's scrim as the point goes, and nothing else |
| SessionSafety.SettingsHalvesOrderly | app/api/domains/cho.py:1556-1681 | either half of a settings change that waits for a beatmap keeps the session in order, whatever came between |
| SessionSafety.LatePickOrderly | app/commands.py:2043-2095 | so does a pick whose map was looked up, also when everyone has left |
| SessionSafety.TourneyJoinedOrderly | app/api/domains/cho.py:1956-1978 | tournament clients are never occupants |
| SeatEffects.TourneyJoinStep | app/api/domains/cho.py:1956-1978 | a client joins the chat and is noted exactly if none of its user's sessions sits in a slot and the chat lets it in |
| SeatEffects.TourneyLeaveStep | app/api/domains/cho.py:1982-1999 | a client that is noted leaves the chat and is noted no more |
| SessionSafety.HostFound | app/objects/match.py:203-210 | a seated host is found by id, and is an occupant |
| SessionRuns.RunOrderly | app/objects/player.py:400-848 | over every run of the protocol no step raises, and the session stays in order |
| SessionRuns.StepOrderlyExactly | app/objects/player.py:400-848 | any step of players who are online keeps a match listed exactly while occupied, with a seated host and referees, if and only if it is within the stated conduct, and then it does not raise |
| SessionRuns.LoginOrderlyExactly | app/objects/collections.py:256-267 | a login keeps the session in order if and only if the user has no session yet |
| SessionRuns.InMatchIffOneSlot | app/objects/player.py:659-660 | a player's match is a given one exactly when they occupy exactly one of its slots |
| SessionRuns.JoinOrderly | app/objects/player.py:597-649 | joining a listed match never raises and never seats two players in a slot |
| SeatEffects.JoinMatchExactly | app/objects/player.py:597-649 | with a host online, joining changes the session exactly when the player has no match, is no tournament client, can join the chat, and is the host or has the password and an open slot; then they sit in the first open slot, are in the chat and out of the lobby, and nobody else is moved |
| SeatEffects.JoinStep | app/api/domains/cho.py:1436-1467 | only a listed match, by a player neither restricted nor silenced |
| SeatEffects.ForceStep | app/commands.py:1910-1923 | a forced join is a join with the password, by someone allowed to |
| SessionRuns.CreateOrderlyExactly | app/api/domains/cho.py:1365-1432 | creating keeps the session in order if and only if nothing is created, or the creator has no match and mods that fit the freemods setting |
| SeatEffects.CreateStep | app/api/domains/cho.py:1365-1432 | the match is listed under the lowest free id with sixteen open slots, its maker as host and the request's settings, and then joined; or nothing happens |
| SessionRuns.ReopenedSeatIsLost | app/objects/player.py:640-660 | a player whose slot was reopened and taken can no longer leave: the assertion fails |
| ReopenedSlot.EveningEndsBadly | app/api/domains/cho.py:1518-1552 | a run of eight requests from the start of the server that ends so, and logging out fails as well |
| SessionRuns.LeaveMatchOrderly | app/objects/player.py:651-707 | leaving never raises, unlists the match exactly with its last occupant, and otherwise finds a new host |
| SeatEffects.LeaveMatchExactly | app/objects/player.py:651-707 | the slot is empty, locked if the player was kicked; with nobody left the match is unlisted, and else a host who leaves is followed by whoever sits first; nobody else is moved |
| SessionRuns.HandOverOrder | app/objects/player.py:691-705 | a successor is always found among the occupants |
| SessionRuns.LogoutOrderly | app/objects/player.py:400-420 | a logout leaves match, host and every channel, and raises nowhere |
| SeatEffects.LogoutUnlists | app/objects/player.py:400-420 | exactly the player is gone from the lists, with no match, host watched or channel left |
| SessionRuns.InitialOrderly | app/objects/collections.py:87-92 | the server starts in order, with its public channels |
| OrderlyServer.Start | app/objects/collections.py:87-92 | so does the server object |
| OrderlyServer.Serve | app/api/domains/cho.py:1044-2079 | a request within the conduct, by the handler it goes to, raises nothing and leaves the server object in order |
| OrderlyServer.ServeLogin | app/objects/collections.py:256-267 | a login of a user without a session does too |
| OrderlyServer.ServeCreate | app/api/domains/cho.py:1365-1432 | and a match created by a player without one |
| OrderlyServer.ServeSpectate | app/api/domains/cho.py:1044-1078 | and spectating anyone, with a new channel when none is listed |
| SessionServer.Server.JoinChannel | app/objects/player.py:709-720 | on the objects: the step of the session |
| SessionServer.Server.LeaveChannel | app/objects/player.py:747-754 | on the objects: the step, with the half-done change when it raises |
| SessionServer.Server.RemoveMember | app/objects/channel.py:123-131 | an instanced channel leaves the list with its last member |
| SessionServer.Server.LeaveChannels | app/objects/player.py:414-416 | the while loop ends with the outcome of the recursive step |
| SessionServer.Server.AddSpectator | app/objects/player.py:780-818 | on the objects, with a new channel when none is listed |
| SessionServer.Server.RemoveSpectator | app/objects/player.py:820-848 | on the objects, raising where the code does |
| SessionServer.Server.JoinMatch | app/objects/player.py:597-649 | on the objects: checks, password included, then channel, lobby, slot, match and state in order |
| SessionServer.Server.LeaveMatch | app/objects/player.py:651-707 | on the objects: slot, channel, list or host, and match in order |
| SessionServer.Server.SendState | app/objects/match.py:297-306 | sending raises exactly without a host or on a slot that reads as having a player but has none |
| SessionServer.Server.Logout | app/objects/player.py:400-420 | on the objects: the step of the session |
| SessionServer.Server.StartSpectating | app/api/domains/cho.py:1048-1078 | on the objects: the step of the session |
| SessionServer.Server.CreateMatch | app/api/domains/cho.py:1365-1432 | on the objects: a new match and channel are listed before the creator joins |
| SessionServer.Server.JoinAsTourneyClient | app/api/domains/cho.py:1960-1978 | on the objects: the step of the session |
| SessionServer.Server.ForceInto | app/commands.py:1910-1923 | on the objects: the step of the session |
| SessionServer.Server.PerformInMatch | app/api/domains/cho.py:1505-1516 | an action on the player's match changes that match alone, and sends its state last |
| SessionServer.Server.TimerGoesOff | app/commands.py:1451-1464 | the timer's match starts, and no other object changes |
| SessionServer.Server.ScoreListedPlay | app/objects/match.py:402-545 | scoring a play moves that match's scrim alone |
| SessionServer.Server.FindFreeId | app/objects/collections.py:106-112 | the lowest free match id, or none |
| SessionServer.ClearedFirst | app/objects/collections.py:114-119 | the first entry that is the match is cleared, and no other |
| AwaitSubmissions.AwaitSubmissions | app/objects/match.py:342-400 | scores, missing players and time waited are those of the slots' fates, up to one whose assertion fails |
| AwaitSubmissions.FateIsFirstFind | app/objects/match.py:366-397 | each wait ends at the first look that finds a score, or times out exactly when no look in time does |
| AwaitSubmissions.WaitIsBounded | app/objects/match.py:390-397 | in all at most ten seconds and half a second for each player timed out, for any pattern of arrivals, also when the assertion ends the wait; more than ten exactly when someone timed out |
| AwaitSubmissions.AccountedExactly | app/objects/match.py:366-400 | a player has a score read or is among those who did not submit if and only if some slot shows them at the look that decides it |
| AwaitSubmissions.EveryoneAccountedFor | app/objects/match.py:366-400 | when the awaited players keep their slots, no assertion fails, and exactly they are accounted for |
| AwaitSubmissions.ReplacedPlayerIsLost | app/objects/match.py:366-400 | a slot that changes hands between two looks: its player is neither read nor said not to have submitted |
| AwaitSubmissions.TotalsAreSums | app/objects/match.py:383-386 | each side's total is the sum of its players' scores |
| AwaitSubmissions.SidesInOrder | app/objects/match.py:383-386 | the sides listed are those with a score other than zero, in the order in which their first was read |
| AwaitSubmissions.SidesFit | app/objects/match.py:385-386 | the sides are of the kind the team type has, once each |
| AwaitSubmissions.AwaitedPointIsAwarded | app/objects/match.py:424-530 | so the point they decide is awarded without an assertion failing, and keeps the ledger |
| Clans.ClansService.Create | app/services/clans.py:110-151 | on the tables and session objects: the operation, with its refusals in order |
| Clans.ClansService.Disband | app/services/clans.py:153-168 | on the objects: every member's row and session is cleared |
| Clans.ClansService.Leave | app/services/clans.py:170-198 | on the objects: the operation |
| Clans.ClansService.Transfer | app/services/clans.py:200-255 | on the objects: clan row, both user rows and both sessions |
| Clans.CreateKeeps | app/services/clans.py:110-151 | exactly when a clan is created, and that it keeps one owner per clan, unique names and agreeing sessions |
| Clans.CreateEffect | app/services/clans.py:110-151 | which refusal each condition gets, with all left as it was; else the founder owns the clan in the table and online, and nobody else changes |
| Clans.LeaveKeeps | app/services/clans.py:170-198 | leaving never disbands, and succeeds exactly for members below Owner, who are then in no clan in the table and online, with nobody else changed; otherwise nothing changes |
| Clans.LeaveEffect | app/services/clans.py:170-198 | in any state: which refusal each condition gets, who is out of the clan after, when the clan goes with its last member, and that nobody else changes |
| Clans.TransferKeeps | app/services/clans.py:200-255 | exactly when ownership is transferred, and that the unique index on owners never objects |
| Clans.TransferEffect | app/services/clans.py:200-255 | which refusal each condition gets; else the target is Owner and the former owner Officer, in clan row, user rows and sessions, and nobody else changes |
| Clans.DisbandKeeps | app/services/clans.py:153-168 | no user is left with the id of a clan that is gone |
| Clans.DisbandEffect | app/services/clans.py:153-168 | every member is in no clan, in the table and online, and nobody else changes |
| Clans.RunKeeps | app/services/clans.py:97-255 | after every run each clan has one Owner, the recorded one; no clan id dangles; names and tags are unique; sessions match the tables |
| Clans.LeavingNeverDisbands | app/services/clans.py:187-188 | the disband-on-empty branch is unreachable |
| BeatmapSets.Beatmap.ParseFromApi | app/objects/beatmap.py:394-437 | a frozen map keeps its status |
| BeatmapSets.BeatmapSet.UpdateIfAvailable | app/objects/beatmap.py:553-686 | maps updated in place, new ones made, and the tables rewritten, for each kind of response |
| BeatmapSets.ReconciledIsResponse | app/objects/beatmap.py:571-625 | the set's maps are the response's ids once each, with its md5, its status unless frozen, the rest of it where anything differs, and their old plays and passes; the osu!api's statuses are tabled |
| BeatmapSets.ByIdIsLast | app/objects/beatmap.py:572-572 | of several entries with one id the last counts |
| BeatmapSets.StoredExactly | app/objects/beatmap.py:688-734 | after saving, every map has its row if and only if no two have the same md5 |
| BeatmapSets.UpdateKeepsStepExactly | app/objects/beatmap.py:553-662 | a set whose rows are its maps stays so if and only if the response gives no md5 to two ids |
| BeatmapSets.OtherRows | app/objects/beatmap.py:690-703 | rows of other maps go exactly when their md5 is taken |
| BeatmapSets.SavedWithData | app/objects/beatmap.py:553-659 | which scores and which rows outside the set go, and that the check is noted |
| BeatmapSets.SavedWithoutData | app/objects/beatmap.py:660-686 | no answer or another error changes nothing; a set that does not exist goes with its maps and their scores |
| BeatmapSets.ScoresLeft | app/objects/beatmap.py:638-642 | the scores that go are exactly those on dropped maps' md5s, and the others stay as often as they were there |

## Left out

- Chat text, logging, web hooks, HTTP routing, Redis, replay files, the pp calculator and the packets sent to other
  clients: they are effects or inputs. Of sending a match's state, that it can raise is kept.
- `write_channel`, `read_channel`, score frames and lists of 32-bit integers: the code does not round-trip them.
- UTF-8 itself, floating-point rounding and the width of SQL columns.
- The indexes of online players by token and by name, which the code does not keep in agreement with the list.
- Wall-clock time: a start timer goes off at any later point, and its countdown alerts change nothing.
- Score submission with no .osu file at hand, where the code leaves the status unset.
- Achievements, pools, bans, invitations, the match's name, password, map and win condition: nothing here depends on them.
- `MATCH_FAILED` and `MATCH_SCORE_UPDATE`, which change no state.
- Submission.SubmitLocked: the replay and anti-cheat checks between the status and the transaction are not modelled.
- AwaitSubmissions.AwaitSubmissions: when a recent score counts as one of this play is the caller's to say, look by look.
- Multiplayer.Match.UpdateMatchpoints: the announced texts are not modelled, but for reading the loser's points, which adds a key.
- BeatmapSets.BeatmapSet.UpdateIfAvailable: the cached maps have distinct ids to begin with, as every update leaves them; the
  code would silently keep the last of two.
- Multiplayer.Match.ChangeSettings: one step here; where the code waits for a beatmap in the middle, each half is such a step
  (`SessionSafety.SettingsHalvesOrderly`), but a handler that resumes after its player left every match, and raises, is not modelled.
- Multiplayer.Match.Pick: one step here; the code checks the sender's rights before it looks the map up, and changes the match after.
- Clans.CreateKeeps: upper-casing the tag and the database's collation of names are not modelled.
- Clans.RunKeeps: no command puts a user into a clan; the run has an administrator do it by hand.
- SessionServer.Server.JoinChannel: players' and channels' methods are methods of the server object, which has the lists they reach for.
- SessionRuns.RunOrderly: negative match ids, which Python counts from the end of the list, come as the index they mean.
