# yfitops: a verified model of the game server's core

yfitops is a pub-quiz style music game: a board of song cells, phones that buzz
in, a host who grades, a karaoke phase after every round with a skip vote, Daily
Double performances, and a separate Solo Karaoke mode. This project models the
parts of it where order matters, and proves what they keep.

- `EngineState` is the trivia engine as one step function, `Step`, over 30 kinds
  of commands: client messages, admin commands, disconnects, and deferred work
  (buzz timer, countdown, fade, automatic karaoke) that waits in a bag and may
  be fired in any order, at any time, stale or not. `After` runs any sequence of
  commands. The clock, dice and shuffles are part of each command and arbitrary.
- `EngineObject` is the engine as the program has it: a class whose methods
  update its fields, one method a handler, loops where the program loops. Each
  method is proved to take the state exactly where `Step` does, so that every
  theorem about `Step` and `After` is one about the object. `Attendees` is the
  registry it holds. The many flat fields of the Go struct are grouped in four
  records (round, gate, Daily Double, volume).
- `RoundSafety`, `DailySafety`, `GateTheory`, `KaraokePhase`, `PhaseNonce`,
  `Songs`, `Budget`, `Tracks`, `ModeLock`, `Windows`, `Handover` and `Outcomes`
  prove invariants of every command and their consequences for whole runs;
  `Books` says once what each command does to flags, visits and songs, and
  `Songs` and `Budget` build on it.
- `Scenarios` holds, for each exception to an invariant of the engine, a run
  from a fresh engine that reaches it.
- `BuzzWindow`, `Scoring` and `DailyDoubleDeal` are the algorithms inside the
  engine; `Reveal` and `RevealClockObject` the letter-by-letter reveal.
- `SoloKaraoke` is the second mode; `Playlist` its stored queue; `Framing` the
  wire format with its Go and TypeScript decoders.

Several properties that one would expect turn out to hold only under a
condition. Each is stated with the exact condition, in both directions:

- A New Game taken while the skip vote has been won forgets the picker and keeps
  the flag (`GateTheory.BackedStep`). The flag survives into the next game, where
  the first winner leaves karaoke without any vote (`KaraokePhase.StaleReadySurvives`,
  `KaraokePhase.StaleReadySkipsVote`, and `Scenarios.StaleFlagSkipsVote` for the
  whole run). The comment on `pendingPick` (engine.go:200-206)
  says that entering karaoke resets both halves; the code does not, and the model
  follows the code.
- `admin.reveal` during the countdown brings both halves of the gate back into
  KARAOKE, where they wait together until the next sufficient vote, departure or
  threshold change, or the end of the track (`GateTheory.NotBothStep`,
  `KaraokePhase.BothWait`).
- A refused `admin.select` in KARAOKE wipes the gate before refusing, and kicking
  the picker clears it without the continuation that a disconnect has: the two
  ways in which a sufficient vote is lost (`GateTheory.WakefulStep`).
- An offer opened while an older one is abandoned with songs drawn loses those
  songs (`Songs.ConservedStep`).
- `admin.select`, `admin.reveal` and `admin.endRound` are not refused outside a
  game; used while Solo Karaoke plays they break the mode lock, and nothing else
  does (`ModeLock.ModeStep`). The comment at solo_karaoke.go:517-520 takes the two
  owners to exclude each other by construction; that holds under this condition.
- End Game in the middle of a round leaves its track unplayed, and a Hello without
  a fingerprint wipes the record of whoever held the connection (`Tracks.TrackStep`,
  `Tracks.GradedStep`).
- A second Hello under another identity leaves a stale index entry (`Registry.HelloConsistent`).
- A performer who leaves before the end is not paid, nor one cut off by
  `admin.reveal` (`Outcomes.LeavingPays`).
- The server's frame reader drops frames that arrive in the same read as EOF
  (`Framing.CleanEndNeedsBareEof`).

## Model

| member | source | states |
|---|---|---|
| RoundSafety.RoundStep | server/internal/game/engine.go:900-1051 | every command, with any clock, dice and shuffle, keeps: ADJUDICATE has a registered winner who holds the lock on the round key and no timer left; ROUND_ACTIVE has no winner, a free lock and exactly one timer iff the window is open; no pick or picker during a round; the points still payable fit what was paid; fresh round keys meet nothing old |
| RoundSafety.StartTrackSafe | server/internal/game/engine.go:1412-1460 | a new round meets no lock, timer or fade of an earlier one, from any state between rounds |
| RoundSafety.ResolveSafe | server/internal/game/engine.go:1600-1683 | closing a window, by its timer or at once, keeps the protocol |
| RoundSafety.GradeSafe | server/internal/game/engine.go:1717-1846 | every verdict keeps the protocol and the points discipline |
| DailySafety.DailyStep | server/internal/game/engine.go:2226-2805 | every command keeps: each performance paid at most once and an unfinished one not yet; at most one fade a performance, and a fade in flight for the current key is the recorded one; raters and voters online, ratings within the pool; volume sent equals the set level when no fade is in flight |
| DailySafety.Reachable | server/internal/game/engine.go:391-436 | the whole invariant holds after any run of commands |
| DailySafety.InitInv | server/internal/game/engine.go:327-386 | and in a freshly built engine |
| Outcomes.BuzzProtocol | server/internal/game/engine.go:1512-1846 | in every state a run from a fresh engine reaches: who holds the lock in ADJUDICATE, nobody in ROUND_ACTIVE, one timer iff the window is open, never resting in LOCKED |
| Outcomes.TimerSettles | server/internal/game/engine.go:1600-1710 | an open window has its timer, and when it fires an eligible contender yields a winner that nobody eligible preceded, and otherwise the window just closes |
| Outcomes.StaleTimerIdle | server/internal/game/engine.go:1600-1606 | a timer of another round, or of a round no longer active, changes nothing but the bag |
| Outcomes.RoundPays | server/internal/game/engine.go:1750-1831 | over any run, a finished round has paid 0, 50, or from 100 to its row's maximum; one in play 0, or 50 after a partial guess |
| Outcomes.GradeCredits | server/internal/game/engine.go:1750-1887 | the points a grade books to the round are the winner's gain, 50 for a partial, 0 for a wrong answer, and nobody else's score moves |
| Outcomes.PaidAtMostOnce | server/internal/game/engine.go:2762-2805 | in no run is a performance paid twice, however track ends, skips, fades, end-game and departures interleave |
| Outcomes.LeavingPays | server/internal/game/engine.go:2762-2805 | a performance that leaves the stage is paid exactly once iff its performer is still on record and no reveal cut it off; while it stays nothing is paid |
| Handover.PerformerIsPaid | server/internal/game/engine.go:2490-2805 | from the choice of a song to whatever ends the performance, over any run between: the payout goes to the contestant who was offered the cell and chose the song, and to nobody else, iff that player has not left and no reveal cut it off |
| Handover.StageKeeps | server/internal/game/engine.go:836-897 | the performer on record stays on record until that very player leaves |
| Outcomes.FadesOwnPerformance | server/internal/game/engine.go:3178-3237 | a fade ends only the performance it was started for, and a new performance has none in flight |
| Outcomes.RatersAndVolume | server/internal/game/engine.go:2696-2747 | over any run: ratings within the pool, raters and voters online, level restored when no fade is in flight |
| Outcomes.ActiveIsPool | server/internal/game/engine.go:2086-2123 | the active voters are exactly the pool, and the votes counted are the pool's |
| Outcomes.ThresholdMeans | server/internal/game/engine.go:2098-2113 | the integer threshold is met iff strictly more than the percentage voted, or everybody at 100 |
| GateTheory.BackedStep | server/internal/game/engine.go:516-582 | a won vote is remembered only on behalf of a picker, except after a New Game taken while it is remembered (iff) |
| GateTheory.NotBothStep | server/internal/game/engine.go:2344-2418 | pick and won vote never wait together in KARAOKE, except after a reveal issued with both on record (iff) |
| GateTheory.WakefulStep | server/internal/game/engine.go:2064-2158 | after every command in KARAOKE a met threshold has fired, except after a refused admin.select that wiped the gate or a kick of the picker (iff) |
| GateTheory.GateHolds | server/internal/game/engine.go:836-897 | from a fresh engine the three hold over every run without those four commands |
| GateTheory.WakefulDisconnect | server/internal/game/engine.go:836-897 | no disconnect loses a wakeup, the picker's own included |
| GateTheory.WakefulKick | server/internal/game/engine.go:3261-3306 | a kick loses the wakeup exactly when it hits the picker before a pick with enough votes from the others |
| KaraokePhase.FollowsStep | server/internal/game/engine.go:2344-2418 | what each command does to a waiting phase: both halves leave for TRANSITION, otherwise the phase waits with exactly what happened on record |
| KaraokePhase.GateIsConfluent | server/internal/game/engine.go:1904-1942 | from a clear entry, over any run of votes, picks, other people's departures, threshold changes and track ends, KARAOKE is left iff both halves happened, with the first pick |
| KaraokePhase.RoundsEnterClear | server/internal/game/engine.go:1750-1831 | a round that ends by grade or letters opens karaoke with no pick, no remembered vote and no votes |
| KaraokePhase.CountdownStartsPick | server/internal/game/engine.go:2164-2211 | the countdown starts the picked cell, as a round or an offer, iff it still has a playable track, and otherwise hands over to the admin with a clean gate |
| Handover.PhasePlaysPick | server/internal/game/engine.go:2164-2211 | from a clear karaoke phase in which both halves happen, over every run of the phase and of the countdown: the timer is in the bag and starts the first pick, a cell sure to have a track left, unless its picker has left |
| Handover.CountdownKeeps | server/internal/game/engine.go:836-897 | a countdown is ended by its own timer or the admin alone, and drops picker and pick exactly when the picker disconnects for good or is kicked |
| KaraokePhase.StaleReadySurvives | server/internal/game/engine.go:516-582 | End Game, New Game, Start Game and a selection leave a won vote on record |
| KaraokePhase.StaleReadySkipsVote | server/internal/game/engine.go:2373-2418 | with it, the winner's pick leaves KARAOKE with no vote cast |
| KaraokePhase.BothWait | server/internal/game/engine.go:2344-2361 | both halves on record in KARAOKE wait until a sufficient vote, departure or threshold change or the end of the track, and exactly then the countdown begins, with the pick |
| Scenarios.StaleFlagSkipsVote | server/internal/game/engine.go:516-582 | one run from a fresh engine: the vote won in a first game, New Game, and in the second game the first winner leaves karaoke by picking, with no vote, track end or threshold change |
| Scenarios.BackedCanFail | server/internal/game/engine.go:516-582 | a run from a fresh engine reaches the New Game that leaves the flag without a picker |
| Scenarios.NotBothCanFail | server/internal/game/engine.go:1895-1900 | a run reaches a reveal that puts both halves back into KARAOKE |
| Scenarios.WakefulCanFail | server/internal/game/engine.go:1291-1339 | a run reaches a refused admin.select that wipes a met threshold |
| Scenarios.KickCanLoseVote | server/internal/game/engine.go:3261-3306 | a run reaches a kick of the picker that loses a sufficient vote |
| PhaseNonce.NonceStep | server/internal/game/engine.go:3954-3959 | every command keeps phase, votes and nonce together or raises the nonce, and a karaoke phase so entered has no votes; a counted vote is the one exception to unchanged votes |
| PhaseNonce.StaleIgnored | server/internal/anticheat/nonce.go:50-54 | a player action with any other nonce leaves the state as it was |
| PhaseNonce.LateActionsIgnored | server/internal/anticheat/nonce.go:41-46 | once the phase has changed, an action made for the old phase is dead after any further run |
| PhaseNonce.VotesAreCurrent | server/internal/game/engine.go:2064-2082 | every vote on record in KARAOKE was cast by a pool member with the nonce of that very phase |
| Songs.ConservedStep | server/internal/game/engine.go:2422-2616 | bucket, offered and performed songs add up to the bucket the board was loaded with after every command, except iff a selection opens an offer over one with songs drawn |
| Scenarios.SongsCanBeLost | server/internal/game/engine.go:2226-2262 | a run from a fresh engine opens an offer over one with songs drawn, and loses them |
| Songs.CuratedStep | server/internal/game/engine.go:2422-2616 | no command whatever brings anything but curated songs into the bucket or onto an offer |
| Songs.AlwaysCurated | server/internal/game/engine.go:463-469 | nor does any run |
| Songs.SongsConserved | server/internal/game/engine.go:463-469 | from a fresh engine, over every run in which no selection opens an offer over drawn songs, no song is lost or duplicated |
| Songs.OrderlyIsCareful | server/internal/game/engine.go:2226-2262 | from a fresh engine an admin who keeps to the game overwrites no offer |
| Songs.OrderlyStep | server/internal/game/engine.go:2226-2262 | while the admin keeps to the game, an offer on record is being decided or its game is over, so none is overwritten |
| Songs.PerformsConserved | server/internal/game/engine.go:2490-2616 | performing one of the songs on offer and returning the others conserves all of them |
| Songs.DailyConserved | server/internal/game/engine.go:2422-2487 | so do drawing for an offer and declining one |
| Books.BooksStep | server/internal/game/engine.go:2226-2694 | every command within a game does one of five things to flags, visits, bucket, offer and performed songs, and which cell it counts a visit of is read off the command |
| Budget.BudgetAlways | server/internal/game/engine.go:1327-1332 | from a fresh engine, over any run, performances plus a pending offer plus armed cells never exceed the configured number |
| Budget.FreshBudget | server/internal/game/engine.go:327-386 | a fresh engine is within budget |
| Budget.BudgetStep | server/internal/game/engine.go:2226-2694 | every command keeps the budget, unconditionally |
| Budget.DueStep | server/internal/game/engine.go:1327-1332 | a cell due on its next visit stays due through every command that counts no visit of it, except iff flags are dealt anew or a New Game clears its visits |
| Budget.NewFlagIsDue | server/internal/game/engine.go:2663-2680 | only a declined offer flags a cell within a game, and the cell is due on its next visit |
| Budget.DeclineHandsOn | server/internal/game/engine.go:2663-2680 | a declined offer flags another live, unflagged cell whenever there is one |
| Budget.WhatArms | server/internal/game/engine.go:2647-2694 | only a deal, a New Game and a declined offer ever arm a cell |
| Budget.ReplacementFiresNext | server/internal/game/engine.go:2647-2694 | a cell flagged by a declined offer: after any commands of the game that count no visit of it, its very next counted selection opens an offer, or plays it normally iff nobody is there to take one |
| Budget.FiresOnce | server/internal/game/engine.go:1327-1332 | over any run whatever, a cell opens at most one offer for each time it was armed |
| Tracks.TrackStep | server/internal/game/engine.go:1291-1460 | in any reachable game every command but a New Game keeps rounds started plus rounds startable constant and the played track live until consumed, iff it is not an End Game in mid-round; a round leaving play lowers the tracks left by exactly one and nothing else does |
| Tracks.NewGameRefills | server/internal/game/engine.go:516-582 | a New Game makes every playable track live again |
| Tracks.GradedStep | server/internal/game/engine.go:588-594 | the bar on a second adjudication survives every command, except iff a graded attendee's record is wiped by an anonymous Hello or a graded track is abandoned by End Game |
| Tracks.GradedOnce | server/internal/game/engine.go:1717-1746 | a grade is always the first of its player on its track |
| Tracks.GameIsBounded | server/internal/game/board.go:32-52 | from a fresh engine, after any games and over any run within the next one, overwritten offers and unguarded reveals included, rounds started plus startable stays constant, so rounds are bounded by the tracks there were, and the bar is never lost; only abandoning a round and wiping a graded attendee are excluded |
| Scenarios.GameCanBeAbandoned | server/internal/game/engine.go:1020-1049 | a run from a fresh engine ends a game in mid-round and breaks both |
| Scenarios.GradeCanBeForgotten | server/internal/game/player.go:85-98 | a run wipes a graded attendee by an anonymous second Hello |
| ModeLock.ModeStep | server/internal/game/solo_karaoke.go:201-238 | Solo Karaoke active implies LOBBY or GAME_OVER after every command, late timers included, except iff it is active and an unguarded admin command is issued |
| ModeLock.ModeLockHolds | server/internal/game/engine.go:484-511 | and, from a fresh engine, over every run in which those commands are not issued while Solo Karaoke plays |
| Scenarios.ModeLockCanFail | server/internal/game/solo_karaoke.go:201-238 | a run reveals over a playing Solo Karaoke and breaks the lock |
| ModeLock.OwnerUnambiguous | server/internal/game/solo_karaoke.go:521-530 | the order of the owner switch is immaterial iff the lock holds |
| Frames.StepFramed | server/internal/game/engine.go:900-1051 | no command changes the board, and only three change the Solo Karaoke flag |
| Registry.HelloConsistent | server/internal/game/player.go:71-107 | a Hello keeps the index of connections right iff the connection was not bound to somebody else |
| Scenarios.IndexCanFail | server/internal/game/player.go:71-107 | a run binds one connection twice and leaves a stale entry |
| Registry.ConnectionsConsistent | server/internal/game/player.go:43-67 | connecting and dropping keep it right |
| Registry.OnlineMeansConnected | server/internal/game/player.go:164-166 | online means that some connection is bound to the player |
| Registry.ReconnectResumes | server/internal/game/player.go:71-107 | a fingerprint that comes back after a drop resumes its exact record |
| Registry.AnonymousHelloForgets | server/internal/game/player.go:85-98 | a Hello without a fingerprint starts a new record over the old one |
| BuzzWindow.AddContender | server/internal/game/engine.go:1582-1592 | the loop computes the window's entry rule: one entry a player, replaced in place by an earlier arrival |
| BuzzWindow.WindowRefinesMap | server/internal/game/engine.go:1553-1592 | after any series of buzzes the window is the map from player to earliest arrival |
| BuzzWindow.FindEligible | server/internal/game/engine.go:1632-1650 | the loop finds the first eligible contender of the ranking |
| BuzzWindow.WinnerIsEarliest | server/internal/game/engine.go:1600-1683 | for every shuffle the winner is eligible and no eligible contender arrived earlier; there is one iff somebody is eligible |
| BuzzWindow.TieBreakIsOpen | server/internal/game/engine.go:1609-1630 | every contender tied for earliest wins under some shuffle |
| BuzzWindow.OneWinnerTold | server/internal/game/engine.go:1600-1683 | exactly one player is told it won, with a buzz no eligible buzz preceded, and every other contender that it lost |
| Windows.GatherStep | server/internal/game/engine.go:1512-1592 | every command keeps an open window equal to the window of the buzzes accepted since it opened |
| Windows.TimerHearsAll | server/internal/game/engine.go:1600-1683 | in every state a run reaches with a window open, its one timer judges all buzzes accepted since the opening: an eligible one that no eligible one preceded wins, or nobody if none is eligible |
| Scoring.MaxPointsForRow | server/internal/game/scoring.go:33-52 | 100 up to the first row, then 125, 150, 175, and 200 from the fifth row on |
| Scoring.PoolBounded | server/internal/game/engine.go:108-145 | the decaying pool stays between floor and ceiling, with the ceiling early and the floor late |
| Scoring.DecayMonotone | server/internal/game/engine.go:108-125 | waiting never raises it |
| Scoring.CurvesAgree | server/internal/game/scoring.go:65-79 | the unreduced pool is the scoring curve |
| Scoring.LeftoverBounded | server/internal/game/scoring.go:91-100 | a partial guess leaves at least 50 and at most the maximum less 50 |
| Scoring.SumRatings | server/internal/game/engine.go:2766-2771 | the loop over the ratings, in any order, computes their sum |
| Scoring.PayoutBounded | server/internal/game/scoring.go:105-118 | a performance pays between once and twice its row, twice for all fives, once for all ones |
| Scoring.PayoutMonotone | server/internal/game/scoring.go:105-118 | more stars never lower the payout |
| DailyDoubleDeal.FileCells | server/internal/game/engine.go:1358-1370 | the grid scan files exactly the cells with two or more tracks left under their categories |
| DailyDoubleDeal.DealPass | server/internal/game/engine.go:1382-1402 | one pass raises each category by one flag while cells and count last, for every shuffle and draw |
| DailyDoubleDeal.AssignDailyDoubles | server/internal/game/engine.go:1353-1407 | ends for every generator with min(count, eligible cells) flags, on eligible cells, on their second visit, and no category trails another by more than one unless all its eligible cells are flagged |
| DailyDoubleDeal.DealAccepted | server/internal/game/engine.go:484-511 | every such deal is one the game starts with: its size, its cells and its balance are what Start Game checks |
| Attendees.Registrar.Connect | server/internal/game/player.go:43-47 | registers a bare connection once |
| Attendees.Registrar.Remove | server/internal/game/player.go:51-67 | drops a connection and names the player it was the last one of |
| Attendees.Registrar.Bind | server/internal/game/player.go:71-107 | binds a Hello: resumes a known fingerprint, starts anew otherwise, and files the connection |
| Attendees.Registrar.PlayerFor | server/internal/game/player.go:146-152 | the registered player of a connection, if any |
| Attendees.Registrar.Mobile | server/internal/game/player.go:182-189 | whether some connection of the player has the phone role |
| Attendees.Registrar.MarkGuessed | server/internal/game/engine.go:1433-1436 | sets the one-guess flag of exactly the given players |
| Attendees.Registrar.ResetScores | server/internal/game/engine.go:544-549 | zeroes scores and guesses and nothing else |
| Attendees.Registrar.Phones | server/internal/game/engine.go:1920-1927 | the players present with a phone, active ones only for a vote |
| Attendees.Registrar.CountOnline | server/internal/game/engine.go:2086-2123 | counts the members of a pool that are online |
| EngineObject.Engine.TracksLeft | server/internal/game/model.go:53-66 | the loop yields the unplayed playable tracks of a cell |
| EngineObject.Engine.SelectCell | server/internal/game/engine.go:1291-1339 | a selection: refused while busy, gate wiped, visit counted, offer or round |
| EngineObject.Engine.EndRound | server/internal/game/engine.go:3411-3430 | a forced end consumes the track and frees the lock; a Daily Double is skipped instead |
| EngineObject.Engine.Buzz | server/internal/game/engine.go:1512-1577 | a buzz opens or joins the window, or is resolved at once |
| EngineObject.Engine.ResolveWindow | server/internal/game/engine.go:1600-1683 | closes the window and gives the lock to the first eligible contender of the ranking |
| EngineObject.Engine.Grade | server/internal/game/engine.go:1717-1746 | spends the winner's guess and acts on the verdict |
| EngineObject.Engine.GradePartial | server/internal/game/engine.go:1772-1831 | pays 50 and reopens with the leftover, or ends the round on the second half |
| EngineObject.Engine.LockOut | server/internal/game/engine.go:3675-3698 | bars every phone for the rest of the round |
| EngineObject.Engine.FireCountdown | server/internal/game/engine.go:2173-2209 | the end of a countdown starts the pick if it is playable |
| EngineObject.Engine.EvaluateVotes | server/internal/game/engine.go:2086-2158 | counts active voters and their votes and compares |
| EngineObject.Engine.PlayerSelect | server/internal/game/engine.go:2373-2418 | the picker's own pick, at once on the board, as the pick half in karaoke |
| EngineObject.Engine.BeginOffer | server/internal/game/engine.go:2226-2262 | offers to the last scorer, else to a phone present, else plays normally |
| EngineObject.Engine.Rearm | server/internal/game/engine.go:2663-2680 | the grid loop collects the heirs and arms one of them for its next visit |
| EngineObject.Engine.Decline | server/internal/game/engine.go:2647-2694 | returns the songs, moves the flag, plays the cell normally |
| EngineObject.Engine.Decide | server/internal/game/engine.go:2422-2487 | draws up to five songs on acceptance, once |
| EngineObject.Engine.StartPerformance | server/internal/game/engine.go:2522-2593 | opens a performance under a fresh key with its raters, or declines |
| EngineObject.Engine.FinishDaily | server/internal/game/engine.go:2762-2805 | sums the ratings in a loop, pays the performer on record, back to the board |
| EngineObject.Engine.Disconnect | server/internal/game/engine.go:836-897 | empties the pools, re-evaluates, settles a Daily Double, continues for a vanished picker |
| EngineObject.Engine.Kick | server/internal/game/engine.go:3261-3306 | the same without the continuation |
| EngineObject.Engine.StartGame | server/internal/game/engine.go:484-511 | starts from LOBBY while Solo Karaoke is idle, with a deal of the right size, on eligible cells, balanced over the categories |
| EngineObject.Engine.Reset | server/internal/game/engine.go:516-582 | what a New Game clears, and what it keeps |
| EngineObject.Engine.Unplay | server/internal/game/engine.go:550-563 | the loop frees every track of the board |
| EngineObject.Engine.TrackEnded | server/internal/game/engine.go:3444-3471 | a natural track end, by mode and phase |
| EngineObject.Engine.Fire | server/internal/game/engine.go:391-452 | takes one piece of deferred work out of the bag and does it |
| EngineObject.Engine.Dispatch | server/internal/game/engine.go:900-968 | the object makes exactly the model's step for every command |
| EngineObject.Engine.RunLoop | server/internal/game/engine.go:391-436 | and for every run, with the whole invariant holding between any two commands |
| Reveal.ClampSound | server/internal/game/reveal.go:146-174 | clamping lands in bounds and is the identity exactly there; no letter is due before the block collapses |
| Reveal.BuildRevealOrder | server/internal/game/reveal.go:217-228 | the order is a permutation of the non-space indices, for every shuffle |
| Reveal.OrderFromShape | server/internal/game/reveal.go:217-228 | it depends on the length and the spaces alone |
| Reveal.BuildFieldMask | server/internal/game/reveal.go:246-263 | the two loops show spaces and exactly the revealed letters |
| Reveal.CompletedSpells | server/internal/game/reveal.go:411-415 | a completed mask spells the answer |
| Reveal.MaskNonInterference | server/internal/game/reveal.go:246-263 | answers of one shape that agree on the revealed indices have the same mask |
| Reveal.MaskInforms | server/internal/game/reveal.go:246-263 | and only those: equal masks mean the same shape and agreement on every revealed index |
| Reveal.FramesNonInterference | server/internal/game/reveal.go:314-347 | after any events, such answers have given identical frames |
| Reveal.ClockIsBlind | server/internal/game/engine.go:3547-3781 | the clock runs the same over any answer |
| Reveal.NoiseTellsNothing | server/internal/game/reveal.go:314-334 | a frame of the block phase depends on nothing but the pacing and the year hint: it is the same for every answer, before and after the hint appears |
| Reveal.RoundMonotone | server/internal/game/engine.go:3547-3781 | over any events of a round the phase never decreases, and once the skeleton is up a shown slot stays and stays the same |
| Reveal.AlternatesStep | server/internal/game/reveal.go:369-407 | alternation keeps the counts within one until a field is finished |
| Reveal.TicksBounded | server/internal/game/engine.go:3639-3669 | letter ticks never outnumber the hidden letters, and account for all of them if nothing is forced |
| Reveal.LockoutOnce | server/internal/game/engine.go:3639-3669 | the lockout fires exactly once, at the first tick at or below the threshold, or never if none gets there |
| Reveal.FinalSpells | server/internal/game/engine.go:3740-3761 | the final frame is final and spells both fields |
| RevealClockObject.RevealClock.constructor | server/internal/game/engine.go:3547-3573 | arms the clock of a round with valid orders |
| RevealClockObject.RevealClock.RevealOneLetter | server/internal/game/reveal.go:369-407 | the loop of two tries reveals one letter of the right field, or reports that none is left |
| RevealClockObject.RevealClock.CollapseBlock | server/internal/game/engine.go:3591-3605 | the block becomes the skeleton once |
| RevealClockObject.RevealClock.StartStream | server/internal/game/engine.go:3607-3634 | streaming starts, or the clock stops with nothing to show |
| RevealClockObject.RevealClock.LetterDue | server/internal/game/engine.go:3639-3669 | one tick, paused or live; reports the lockout and the end exactly when they happen |
| RevealClockObject.RevealClock.RevealFieldFully | server/internal/game/engine.go:3765-3781 | a partial grade shows one field |
| RevealClockObject.RevealClock.FinalizeReveal | server/internal/game/engine.go:3740-3761 | shows everything, re-arming a spent clock first |
| RevealClockObject.RevealClock.Frame | server/internal/game/reveal.go:314-347 | builds the sanitized frame of the current state |
| SoloKaraoke.Step | server/internal/game/solo_karaoke.go:179-475 | every command, from every cued state, accesses the queue only in range and leaves the player cued: index -1, or pointing at the current track's id |
| SoloKaraoke.After | server/internal/game/solo_karaoke.go:179-475 | so does any mix of commands |
| SoloKaraoke.ReloadKeepsPlaying | server/internal/game/solo_karaoke.go:179-193 | a reload changes nothing but queue and index, and the index is -1 iff the track is gone |
| SoloKaraoke.RepeatAllCycles | server/internal/game/solo_karaoke.go:446-475 | repeat-all moves the index round the queue |
| SoloKaraoke.RepeatAllCovers | server/internal/game/solo_karaoke.go:446-475 | so n ends play every one of n tracks and come back to the first |
| SoloKaraoke.NoRepeatEnds | server/internal/game/solo_karaoke.go:446-475 | without repeat exactly n-1-index more tracks play before the session ends |
| SoloKaraoke.RepeatOne | server/internal/game/solo_karaoke.go:406-436 | repeat-one replays an end from zero, falls forward if its track is gone, never holds a manual skip back |
| SoloKaraoke.ShuffleMovesOn | server/internal/game/solo_karaoke.go:452-464 | a shuffled step plays some other track, and can play any other one |
| SoloKaraoke.PrevNext | server/internal/game/solo_karaoke.go:320-341 | previous and next cancel out inside the queue, and previous clamps at the first track |
| SoloKaraoke.PositionSinceSeek | server/internal/game/solo_karaoke.go:268-376 | the position is the clamped target of the last seek plus the unpaused time since, read off the command log |
| SoloKaraoke.PositionSinceStart | server/internal/game/solo_karaoke.go:244-288 | and the unpaused time alone from the start of a track |
| SoloKaraoke.SoloPlayer.constructor | server/internal/game/engine.go:384 | nothing is cued at first |
| SoloKaraoke.SoloPlayer.ReloadQueue | server/internal/game/solo_karaoke.go:179-193 | replaces the queue and searches the current track |
| SoloKaraoke.SoloPlayer.PlaySong | server/internal/game/solo_karaoke.go:201-238 | plays a requested, the current or the first track, gated by the mode lock |
| SoloKaraoke.SoloPlayer.StartAt | server/internal/game/solo_karaoke.go:244-266 | starts a queue entry from zero, unpaused |
| SoloKaraoke.SoloPlayer.PausePlayback | server/internal/game/solo_karaoke.go:268-276 | freezes the position |
| SoloKaraoke.SoloPlayer.ResumePlayback | server/internal/game/solo_karaoke.go:278-288 | re-anchors the clock at it |
| SoloKaraoke.SoloPlayer.Halt | server/internal/game/solo_karaoke.go:301-313 | ends the session, leaving the index |
| SoloKaraoke.SoloPlayer.DrawOther | server/internal/game/solo_karaoke.go:454-461 | the reject loop yields the first draw that is not the current index |
| SoloKaraoke.SoloPlayer.MoveForward | server/internal/game/solo_karaoke.go:446-475 | the next track, or the end |
| SoloKaraoke.SoloPlayer.SkipBack | server/internal/game/solo_karaoke.go:332-341 | the previous track, clamped |
| SoloKaraoke.SoloPlayer.SeekTo | server/internal/game/solo_karaoke.go:343-376 | moves the clock to the clamped target, paused or not |
| SoloKaraoke.SoloPlayer.Advance | server/internal/game/solo_karaoke.go:406-436 | a natural end |
| Playlist.ReorderMeets | server/internal/store/solo_karaoke_store.go:157-172 | for any list of ids the result has exactly the existing ids, none twice, requested ones first as requested, the rest as before |
| Playlist.ReorderExact | server/internal/store/solo_karaoke_store.go:157-172 | a complete reordering is met to the letter and an empty one changes nothing |
| Playlist.RepresentsUnique | server/internal/store/solo_karaoke_store.go:116-138 | a table with distinct positions reads as one sequence only |
| Playlist.AddAppends | server/internal/store/solo_karaoke_store.go:90-114 | max plus one appends, whatever the gaps |
| Playlist.RemoveDeletes | server/internal/store/solo_karaoke_store.go:140-155 | a removal leaves a hole and the rest in order |
| Playlist.ReorderRenumbers | server/internal/store/solo_karaoke_store.go:222-228 | renumbering every row by the final order makes the table read as that order |
| Playlist.PlaylistStore.MaxPlusOne | server/internal/store/solo_karaoke_store.go:101-105 | the position one past the highest, 0 for an empty table |
| Playlist.PlaylistStore.AddTrack | server/internal/store/solo_karaoke_store.go:90-114 | appends, or reports a uri already there, as on the plain sequence |
| Playlist.PlaylistStore.RemoveTrack | server/internal/store/solo_karaoke_store.go:146-155 | deletes, or reports not found |
| Playlist.PlaylistStore.ListTracks | server/internal/store/solo_karaoke_store.go:116-138 | reads the plain sequence |
| Playlist.PlaylistStore.FinalIds | server/internal/store/solo_karaoke_store.go:201-220 | the loops over requested and existing ids build the final order |
| Playlist.PlaylistStore.ReorderTracks | server/internal/store/solo_karaoke_store.go:173-234 | reorders the plain sequence |
| Playlist.PlaylistStore.Apply | server/internal/store/solo_karaoke_store.go:90-234 | over any run of operations the table is the plain sequence |
| Framing.TakeEncode | server/internal/transport/framing.go:36-104 | a frame is read back iff its body is within the cap, and a longer one is refused by its length |
| Framing.EncodeTake | server/internal/transport/framing.go:86-104 | a frame read is one the encoder writes |
| Framing.DrainSplits | web/shared/client.ts:229-254 | draining loses and invents nothing, stops at a partial frame, and fails iff a declared length exceeds the cap |
| Framing.DrainEncodeAll | web/shared/client.ts:147-153 | whatever bodies were written come back in order, with the tail kept |
| Framing.FeedIsDrain | web/shared/client.ts:190-227 | the client's result is the same for every chunking |
| Framing.ReadAllRepeats | server/internal/transport/framing.go:60-82 | reading a connection is reading frame after frame |
| Framing.ReadAllIs | server/internal/transport/framing.go:60-82 | the reader delivers exactly what is complete before the read that brings EOF, and how it then ends |
| Framing.ReaderRoundTrip | server/internal/transport/framing.go:36-104 | every list of bodies within the cap, in every chunking, is read back by server and client, with a clean end |
| Framing.DecodersAgree | web/shared/client.ts:190-254 | server and client yield the same frames, the same remainder and the same failure for any two chunkings of one stream |
| Framing.CleanEndNeedsBareEof | server/internal/transport/framing.go:70-79 | a stream of whole frames is read in full and ends cleanly iff EOF comes in a read of its own |
| Framing.FrameWithEofLost | server/internal/transport/framing.go:70-79 | a frame that arrives together with EOF is lost; the same frame before EOF is not |
| Framing.EncodeFrame | server/internal/transport/framing.go:36-41 | prefix and copy produce the frame |
| Framing.FrameReader.TakeOne | server/internal/transport/framing.go:86-104 | takes one frame off the buffer or leaves it |
| Framing.FrameReader.ReadOne | server/internal/transport/framing.go:60-82 | the loop reads until a frame, a violation or an error |
| Framing.FrameClient.DrainFrames | web/shared/client.ts:229-254 | the loop dispatches every complete frame and returns the rest, or nothing on a violation |
| Framing.FrameClient.FeedWS | web/shared/client.ts:212-227 | one message: dispatches what it completes, keeps the rest, or drops everything and goes down on a violation |
| Framing.FrameClient.ReadLoopWT | web/shared/client.ts:190-207 | dispatches over all chunks exactly what the specification does, and reports the end once |
| Framing.FrameClient.HandleClose | web/shared/client.ts:183-187 | goes down unless closed by itself |

## Left out

- HTTP handlers, the Postgres and Redis drivers, Spotify, lyrics and AI clients, certificates, configuration and the React apps: input and output without state of their own.
- Broadcasts, JSON envelopes, errors sent to clients, telemetry, the cheat report, drop points and lyric fetching: they only read the engine.
- The clock, the random generators and goroutine scheduling are inputs of each command; the order of commands and deferred work is arbitrary.
- Round keys are numbers that are never reused. The program builds them from cell, track and start time in milliseconds, so two rounds on one track within a millisecond would share one.
- Player ids distinguish fingerprints from connections by constructor; a fingerprint spelled like a connection id is not represented.
- Reloading the board during a game: the board of a run is fixed, and its songs are distinct objects.
- Round-trip times and idle-round counts, which nothing in the engine acts on.
- The buzz lock is the single-process one of lock_mem.go, kept in the engine's `locks`; a lock error or a second server instance is not represented. The nonce gate of nonce.go is the engine's `nonce`.
- Playback control and seek in the trivia game, and failures of the audio device.
- The volume writer's 64-slot buffer is taken to drop nothing.
- EngineObject.Engine.StartGame: is given the deal and checks it, rather than running AssignDailyDoubles; what it checks is what AssignDailyDoubles promises (size, eligible cells, balance), and DealAccepted connects the two.
- EngineObject.Engine.LockOut: the letter clock reaches the engine as two commands for the lockout and the last letter, possible at any time; Reveal states when the clock sends them.
- EngineObject.Engine.TrackEnded: whether a Solo Karaoke queue is over comes with the command; SoloKaraoke says when it is.
- Titles are ASCII, so that byte positions are characters; the seeded shuffle is an arbitrary one that is the same whenever the round is the same.
- Points and percentages are exact; the program's floating-point copies are not compared bit for bit.
- Session limits, handle sanitising, lyric parsing and the Solo Karaoke library table.
- The client's nonce bookkeeping, its connection set-up and its tolerance of malformed JSON: a body is opaque.
- SoloKaraoke.ShuffleMovesOn: a shuffled step assumes that the generator eventually draws another index; the program's loop waits for one.
