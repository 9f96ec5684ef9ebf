# Debate platform: a verified model of its stateful services

The platform lets two players debate in a room, lets spectators vote, combines AI and audience
scores into a final score, pays the players XP and Elo, and streams events to browsers. This
project models the parts of it that keep state across asynchronous calls, or compute scores, and
proves what they guarantee. `dafny verify dfyconfig.toml` checks everything.

## How the models are built

Each stateful service appears up to three times, and the three are tied together by proof.

1. **Interleaved model** (`RoomProtocol`, `ScoringProtocol`, `Settlement`, `LeaderboardCache`,
   `Realtime`). Every call is split at its `await`s. A suspended call keeps the local values it
   has read; any number of calls advance, fail or are lost in any order. A run is a sequence of
   events, so "in every run" is "for every sequence". SQL unique, check and foreign-key
   constraints are guards of the store statements.
2. **Serial model** (`RoomSerial`, `ScoringSerial`, `SettlementSerial`). The effect of a whole
   call that nothing overtakes. Lemmas named `...IsARun` show that it is one of the interleaved
   runs.
3. **Service classes** (`DebateServices`, `ScoringServices`, `RankingServices`,
   `RealtimeServices`, and the retry loop in `OpenRouter`). Fields updated in place, loops and
   branches in the order of the TypeScript methods; each method is proved against the serial
   model or the hub.

| files | component |
|---|---|
| `DebateStates`, `RoomStore`, `RoomProtocol`, `RoomProofs`, `RoomRuns`, `RoomSerial`, `RoomRefinement`, `RoomOverlap`, `RoomFullness`, `RoomJobs`, `RoomTimers`, `RoomStarts`, `RoomReplay`, `RoomAnswers`, `RoomRows`, `RoomCalls`, `DebateService` | debate rooms: transitions, admission, timers, messages, job queues |
| `Reals`, `Rounding`, `Doubles`, `Ties`, `Percentage`, `FinalScore`, `ScoringStore`, `ScoringProtocol`, `ScoringProofs`, `ScoringSources`, `ScoringSerial`, `ScoringService` | votes, final scores, keyed finalisation jobs |
| `Elo`, `EloSymmetry`, `PlayerStats`, `Settlement`, `SettlementProofs`, `SettledBooks`, `SettlementSerial`, `SettledRuns`, `SettledRequests`, `SettledResults`, `SettledSources`, `Leaderboard`, `LeaderboardCache`, `RankingService` | XP and Elo settlement across ranking and profile, leaderboard and its cache |
| `Realtime`, `RealtimeService` | channel fan-out to live streams |
| `OpenRouter` | bounded retry of a chat completion |
| `Common` | runs of a step machine, totals over table rows |

## Where the code is weaker than it looks

The transition table and several comments suggest stronger guarantees than the code gives. The
model follows the code; each case is a lemma.

- `transitionState` filters by room id only, so two overlapping transitions can take a room from
  VOTING back to RUNNING (`RoomCanMoveBackwards`). The history leaves the single path if and only
  if some transition commits while another that has already read the room waits to commit, and
  that one commits too (`OffPathIffOvertaken`); with one writer at a time it never does
  (`OneWriterKeepsThePath`). A commit goes backwards if and only if the last commit it waited
  through went further (`MovesBackwardsIff`).
- `transition` never looks at participants: a RUNNING room can be empty
  (`RunningRoomCanBeEmpty`). If every request to start a room comes when both players are in it,
  and so also when only the prep timer starts it, the room is full from the moment it leaves
  PREPARATION (`StartedRoomIsFull`). In serial runs it lacks a player if and only if some such
  request came too early (`RunsShortIffStartedShort`).
- `getReplay` reads its tables side by side, in no fixed order, so a message can lack a side
  (`EarlyParticipantsLoseASide`). When a read of the participants serves all later messages is
  known for every state: in PREPARATION if and only if both players are there
  (`ReadSufficesIffFull`), afterwards if and only if no join is under way whose user can still be
  seated and then be heard (`ReadSufficesIffNoLatecomer`).
- The comment on the finalisation producer (services/scoring/src/jobs/debate-jobs.producer.ts:12-16)
  promises at most one finalisation per debate. That holds for the keyed jobs of the scoring
  service. The debate service adds jobs to the same queue without a key: a room that commits
  VOTING twice adds two (`VotingTwiceAddsTwoJobs`), and it never has more jobs than commits to
  VOTING, so at most one while its history is a single path (`JobsAreVotings`). A job of the
  scoring service lost at a failed enqueue is added again only after the debate has left VOTING
  (`JobAfterUpsert`).
- XP and Elo settlement both report a result, so the debates counter rises twice per debate
  (`BooksBalance`). A repeated XP settlement pays again before it answers ALREADY_EXISTS
  (`RepeatedXpPaysAgain`), and a repeated Elo settlement overwrites `elo_delta`
  (`RepeatedEloForgetsTheFirst`).
- A player who has less Elo than the loss makes the settlement fail although the winner has been
  paid, without any storage failure (`RefusedEloPaysOneSide`). For requests in order this is the
  only way not to go through (`AllGoThroughIffAffordable`).
- Percentages and winrates are computed in doubles, and the models compute them so. They are the
  exact half-up percentage if and only if the share is none of 29/200, 57/200, 113/200 and 115/200,
  for which they are one lower (`PercentageIsExactIff`). The two percentages of a vote sum to 101
  only for ties that avoid these four (`PercentagesSum`).
- An overtaken room can be left RUNNING without any timer (`OvertakenRoomLosesItsTimer`). Without
  failures a room that nobody overtook is always on its way to VOTING (`RunningRoomIsOnItsWay`).

## Model

| member | source | states |
|---|---|---|
| RoomProofs.HistoryIsCausallyClosed | services/debate/src/debate/debate.service.ts:52-79 | under every interleaving each committed record is an allowed edge leaving PREPARATION or the target of an earlier record, the room state is the target of the last one, and a CLOSED room committed all three edges in order |
| RoomOverlap.OffPathIffOvertaken | services/debate/src/debate/debate.service.ts:52-79 | in every run a room's log is not a single path if and only if some transition committed while another, past its read, waited to commit on the same room and did so later; otherwise the log is the prefix of the complete life that ends in the room state |
| RoomOverlap.OneWriterKeepsThePath | services/debate/src/debate/room.repository.ts:26-39 | when never two transitions of a room wait to commit at once, its log is a prefix of the complete life |
| RoomOverlap.TwoWritersBreakThePath | services/debate/src/debate/room.repository.ts:32-37 | two transitions that wait to commit on a room at the same moment and both commit always take it off the path |
| RoomOverlap.MovesBackwardsIff | services/debate/src/debate/room.repository.ts:26-39 | a commit takes its room backwards if and only if the last commit on the room while the call waited moved it further than this one does |
| RoomRuns.RoomCanMoveBackwards | services/debate/src/debate/room.repository.ts:32-37 | a concrete run after which a room that reached VOTING is RUNNING again |
| RoomFullness.StartedRoomIsFull | services/debate/src/debate/debate.service.ts:52-115 | under every interleaving in which each request to start a room finds two participants, the room has its POUR and its CONTRE player whenever it is outside PREPARATION |
| RoomFullness.RunsShortIffStartedShort | services/debate/src/debate/debate.service.ts:52-96 | in serial runs a room outside PREPARATION lacks a player if and only if a request to start it found it in PREPARATION with fewer than two |
| RoomRuns.RunningRoomCanBeEmpty | services/debate/src/debate/debate.service.ts:52-66 | a concrete run with a RUNNING room without participants, the case that the two rows above exclude |
| RoomTimers.RunningRoomIsOnItsWay | services/debate/src/debate/debate.service.ts:164-194 | in every interleaved run without failures, a RUNNING room on a single path has a debate timeout pending, or a call that will schedule one or is taking it to VOTING |
| RoomRuns.OvertakenRoomLosesItsTimer | services/debate/src/debate/debate.service.ts:64-71 | a concrete run that leaves an overtaken room RUNNING with no timeout and no call under way |
| RoomJobs.EveryVotingIsAccountedFor | services/debate/src/debate/debate.service.ts:68-71 | in every run the commits of a room to VOTING are, for each queue, its jobs there plus those still owed by a call plus those lost to failures and restarts |
| RoomJobs.JobsAreVotings | services/debate/src/debate/debate.service.ts:196-207 | in every run a room has at most as many jobs in a queue as commits to VOTING, at most one on a single path, and exactly as many if and only if none is owed or lost |
| RoomJobs.FailedAddFailsTheCall | services/debate/src/debate/debate.service.ts:196-207 | in every run a transition to VOTING of which one of the two adds has failed never answers that it went through |
| RoomRuns.VotingTwiceAddsTwoJobs | services/debate/src/debate/debate.service.ts:198-205 | a concrete run that commits VOTING twice and leaves two replay and two finalisation jobs |
| RoomProofs.SeatsFillInOrder | services/debate/src/debate/debate.service.ts:81-115 | under every interleaving of joins the sides in insertion order are [], [POUR] or [POUR, CONTRE] and the users differ |
| RoomProofs.PrepTimerArmedOnce | services/debate/src/debate/debate.service.ts:105-112 | over a whole run at most one join arms a room's prep timer, and it is the one that inserted CONTRE |
| RoomStarts.SerialTimeouts | services/debate/src/debate/debate.service.ts:52-115 | in serial runs a room in PREPARATION has both players if and only if a timeout that will start it is pending, and a CLOSED room has no timeout of either kind |
| RoomStarts.ReadyRoomIsStarting | services/debate/src/debate/debate.service.ts:105-112 | in every interleaved run without failures, a room in PREPARATION with both players has such a timeout pending, or a call that will schedule one or is taking it to RUNNING |
| RoomStarts.OnePrepTimeoutPerRoom | services/debate/src/debate/debate.service.ts:164-173 | over a whole run, with failures and restarts, a room has at most one prep timeout, and only after both players have joined |
| RoomProofs.QuestionIsNeverReplaced | services/debate/src/debate/debate.service.ts:105-110 | a question once stored is in place in every later state |
| RoomRows.QuestionIsThePickedOne | services/debate/src/debate/debate.service.ts:105-110 | in every interleaved run a room's question is what randomQuestion answered to the join that filled it; if that join went through, the room has that question, or none if none was answered |
| RoomProofs.ReplayKnowsEveryAuthor | services/debate/src/debate/debate.service.ts:134-156 | a replay whose participants are read no earlier than its messages has a side for every message |
| RoomProofs.ReplayReportsSentSide | services/debate/src/debate/debate.service.ts:117-156 | every later replay reports, for a message that sendMessage returned, the same side it returned |
| RoomReplay.ReadSufficesIffFull | services/debate/src/debate/debate.service.ts:134-153 | for a room in PREPARATION, the participants read now give a side to every message of every continuation if and only if there are two of them |
| RoomReplay.ReadSufficesIffNoLatecomer | services/debate/src/debate/debate.service.ts:134-153 | for a room outside PREPARATION, the participants read now give a side to every message of every continuation if and only if no join under way can still seat a user whose message can still be accepted; in a RUNNING room, if and only if no join under way can still seat anybody |
| RoomReplay.FullReadKnowsAll | services/debate/src/debate/debate.service.ts:136-153 | whatever the room's state and the order of the reads, two participants read give a side to every message of any later state |
| RoomRuns.EarlyParticipantsLoseASide | services/debate/src/debate/debate.service.ts:136-140 | a concrete run in which participants read before messages leave a message without a side |
| DebateStates.ClosedNeedsThreeEdges | services/debate/src/debate/debate-state.ts:8-17 | a causally closed log that ends in CLOSED holds all three edges in order |
| DebateStates.PathIsPrefix | services/debate/src/debate/debate-state.ts:8-17 | a single path of allowed edges is a prefix of PREPARATION, RUNNING, VOTING, CLOSED |
| RoomStore.SideOfFinds | services/debate/src/debate/debate.service.ts:124-128 | the lookup of a participant fails exactly when the user has no row, and otherwise gives a side the user has |
| RoomSerial.SerialLifecycle | services/debate/src/debate/debate.service.ts:52-79 | in serial runs the log is a prefix of the complete life, a single debate timeout is pending exactly while RUNNING, and one replay and one finalisation job exist exactly from VOTING on |
| RoomAnswers.AnswersAreTrue | services/debate/src/debate/debate.service.ts:52-132 | in every interleaved run each answer is true of the tables from then on, whatever else happens: who was told to have joined is seated, a transition that went through was entered, a refused one had no edge, a sent message is stored with the author, text and side of its request, a room answered full has two other players |
| RoomRows.MessagesAreAnsweredSends | services/debate/src/debate/room.repository.ts:83-90 | in every interleaved run the messages of a room are exactly, each once, those of the sends that were answered, with the author and text they asked for |
| RoomRows.RowsWereRequested | services/debate/src/debate/debate.service.ts:52-115 | in every interleaved run each participant was seated by a join of that user that was not refused, each transition in the log was asked for by a caller or a timeout of the room, and each job names the debate of its room |
| RoomRows.RoomOfItsDebate | services/debate/src/debate/debate.service.ts:42-45 | a room always belongs to the debate its creation named |
| RoomCalls.WhatTransitionDoes | services/debate/src/debate/debate.service.ts:52-79 | an undisturbed transition goes through exactly to the same state or one edge ahead; one edge ahead it writes state and log record, and adds a job to both queues exactly for VOTING; otherwise it changes nothing |
| RoomCalls.WhatCommitDoesToTimeouts | services/debate/src/debate/debate.service.ts:64-76 | a commit to RUNNING adds the debate timeout, one to VOTING ends it, one to CLOSED ends both timeouts of the room, and no other timeout changes |
| RoomCalls.WhatFireDoes | services/debate/src/debate/debate.service.ts:164-184 | a timeout goes off once: the prep timeout takes its room from PREPARATION to RUNNING and adds the debate timeout, the debate timeout takes it from RUNNING to VOTING and adds both jobs; in any other state only the timeout is gone |
| RoomCalls.WhatJoinDoes | services/debate/src/debate/debate.service.ts:81-115 | which refusal a join gets when, and that a new player adds one row (POUR first, then CONTRE) and the second player also the question and one prep timeout, and nothing else |
| RoomCalls.WhatSendDoes | services/debate/src/debate/debate.service.ts:117-132 | which refusal a message gets when, and that an accepted one adds one row with its author and text and answers the author's side |
| RoomSerial.LatePrepTimerChangesNothing | services/debate/src/debate/debate.service.ts:164-173 | a prep timer that goes off changes nothing but itself if and only if its room is gone or has left PREPARATION |
| RoomRefinement.SerialRunIsARun | services/debate/src/debate/debate.service.ts:52-132 | every serial run is an interleaved run with the same tables, timers and queues and no stale commit |
| DebateServices.RoomRepository.TransitionState | services/debate/src/debate/room.repository.ts:26-39 | both writes happen, whatever the stored state, or neither when the room is missing |
| DebateServices.RoomRepository.AddParticipant | services/debate/src/debate/room.repository.ts:75-81 | the insert succeeds exactly when the room exists and neither unique constraint is violated, and appends one row |
| DebateServices.DebateService.Transition | services/debate/src/debate/debate.service.ts:52-79 | the whole call changes tables, timers and queues as the serial model says, with its outcome |
| DebateServices.DebateService.JoinRoom | services/debate/src/debate/debate.service.ts:81-115 | the same for joinRoom, with every refusal |
| DebateServices.DebateService.SendMessage | services/debate/src/debate/debate.service.ts:117-132 | the same for sendMessage, with every refusal |
| DebateServices.DebateService.GetReplay | services/debate/src/debate/debate.service.ts:134-156 | the map of sides built in a loop gives each message the side of the author's last participant row |
| DebateServices.DebateService.Fire | services/debate/src/debate/debate.service.ts:164-184 | a timer callback forgets its timer and then performs its transition |
| Percentages.PercentagesSum | services/scoring/src/votes/spectator-votes.service.ts:84-96 | with a vote the two computed percentages sum to 100, or to 101 exactly when both are half-point ties and neither share is one of the four |
| Percentages.PercentageIsExactIff | services/scoring/src/scoring/scoring.service.ts:283-286 | computed in doubles, a percentage is the exact half-up one if and only if the share is none of 29/200, 57/200, 113/200 and 115/200, and one lower for these, for all counts below 2 ** 32 |
| Percentages.FiftySevenOfTwoHundred | services/scoring/src/scoring/scoring.service.ts:285 | the computed percentage of 57 votes in 200 is 28, the exact one 29 |
| Ties.TieIsComputed | services/scoring/src/scoring/scoring.service.ts:285 | of the shares m / 200 with odd m, two roundings to doubles leave exactly four rounded down |
| Doubles.ToDoubleMonotone | services/scoring/src/scoring/scoring.service.ts:285 | rounding to the nearest double, ties to even, keeps the order |
| Doubles.ToDoubleError | services/scoring/src/scoring/scoring.service.ts:285 | and errs by at most 2 ** -53 of the value |
| FinalScores.ComputedRowOk | services/scoring/src/scoring/scoring.service.ts:139-158 | a computed row has six scores in 0..100, finals that are half-up means of their columns, and the matching winner |
| FinalScores.WinnerByExactSums | services/scoring/src/scoring/scoring.service.ts:288-299 | rounding never reverses the larger sum, a lead of two always wins, a lead of one wins exactly when the other sum is even, a draw means a gap of at most one |
| FinalScores.SwappingSidesSwapsOutcome | services/scoring/src/scoring/scoring.service.ts:139-158 | swapping scores and votes swaps every column and the winner |
| FinalScores.ForVoteHelpsFor | services/scoring/src/scoring/scoring.service.ts:220-232 | one more FOR vote never lowers FOR's final, never raises AGAINST's and never takes a win from FOR |
| ScoringStore.CountIsNumberOfVoters | services/scoring/src/scoring/scoring.repository.ts:136-146 | the grouped count of a side is the cardinality of the set of its voters |
| ScoringStore.GroupsHoldTheCounts | services/scoring/src/votes/spectator-votes.service.ts:110-115 | looking a side up in the groups, absent groups included, gives its count |
| ScoringStore.SummaryAgreesWithFinalScore | services/scoring/src/votes/spectator-votes.service.ts:84-96 | the summary counts the voters, and its scores are the audience scores of the final score on the same table |
| ScoringProofs.AtMostOneVoteSucceeds | services/scoring/src/votes/spectator-votes.service.ts:22-70 | under every interleaving at most one call of a user on a debate reports success, and that call inserted the row |
| ScoringProofs.LateVotesAreRefused | services/scoring/src/votes/spectator-votes.service.ts:43-69 | once a vote is stored, every other call past the debate checks stays pending or ends in ALREADY_EXISTS unless its storage fails |
| ScoringProofs.CountsAreVoters | services/scoring/src/scoring/scoring.service.ts:220-232 | in every reachable state the counts are numbers of voters, for the summary and for the final score alike |
| ScoringProofs.StoredScoresAreSound | services/scoring/src/scoring/scoring.service.ts:103-161 | every stored final row in every reachable state is in range, consistent and names the right winner, however calls interleave |
| ScoringSources.FinalScoresHaveSources | services/scoring/src/scoring/scoring.service.ts:103-161 | every stored final row in every interleaved run holds the FOR and the AGAINST score of a completed analysis the debate had and somebody submitted, and the percentages of those who had voted FOR and AGAINST; FOR wins if and only if its sum of the two leads by two, or by one over an even sum |
| ScoringSources.VotesHaveSources | services/scoring/src/votes/spectator-votes.service.ts:22-70 | every stored vote holds the debate, user and side its call asked for; that call was not refused, and the debate had been RUNNING or VOTING |
| ScoringSources.AnsweredVotesAreStored | services/scoring/src/votes/spectator-votes.service.ts:22-70 | a call that answers Created has stored the vote it was asked for, and after ALREADY_EXISTS that user has a vote on that debate |
| ScoringSources.TablesHaveSources | services/scoring/src/scoring/scoring.service.ts:41-93 | statuses and analyses in the tables are ones that were submitted, and a keyed job is only there for a debate that was set to VOTING |
| ScoringProofs.FinalisationIsBound | services/scoring/src/scoring/scoring.service.ts:41-60 | every debate that was ever VOTING has its keyed job, a call bound to add it, or a call that failed adding it; never two jobs |
| ScoringProofs.FinalisationWithoutFailure | services/scoring/src/scoring/scoring.service.ts:52-57 | without failures the job is there or a call is bound to add it |
| ScoringProofs.JobIdInjective | services/scoring/src/jobs/debate-jobs.producer.ts:31 | two debates never share a job key |
| ScoringSerial.RecomputingChangesNoScore | services/scoring/src/scoring/scoring.service.ts:103-161 | recomputing with the same analysis and vote counts stores the same row |
| ScoringSerial.WhatFinalDoes | services/scoring/src/scoring/scoring.service.ts:103-161 | a final score is stored exactly for an existing debate with a completed analysis and both scores; the row holds each AI score on its own side and the percentages of the FOR and AGAINST voters, and nothing else changes |
| ScoringSerial.WhatVoteDoes | services/scoring/src/votes/spectator-votes.service.ts:22-70 | which refusal a vote gets when, and that an accepted one adds one row with its side |
| ScoringSerial.WhatUpsertDoes | services/scoring/src/scoring/scoring.service.ts:41-60 | the status is written, and the job added exactly when VOTING opens and the queue does not hold it |
| ScoringSerial.WhatAnalysisDoes | services/scoring/src/scoring/scoring.service.ts:62-84 | an analysis is stored exactly for an existing debate and scores that are missing or in 0..100 |
| ScoringSerial.JobAfterUpsert | services/scoring/src/scoring/scoring.service.ts:52-57 | an upsert to VOTING leaves the job queued if and only if it was queued or the row was not VOTING before |
| ScoringSerial.VoteIsARun | services/scoring/src/votes/spectator-votes.service.ts:22-70 | an undisturbed createVote is an interleaved run |
| ScoringSerial.UpsertIsARun | services/scoring/src/scoring/scoring.service.ts:41-60 | an undisturbed upsertDebate is an interleaved run |
| ScoringSerial.FinalIsARun | services/scoring/src/scoring/scoring.service.ts:103-161 | an undisturbed computeFinalDebateScore is an interleaved run |
| ScoringServices.ScoringRepository.CountSpectatorVotesBySide | services/scoring/src/scoring/scoring.repository.ts:136-146 | one pass over the table groups the votes by side; groups are never empty |
| ScoringServices.ScoringRepository.CreateSpectatorVote | services/scoring/src/scoring/scoring.repository.ts:115-134 | a duplicate or an unknown debate leaves the table alone, anything else appends one row |
| ScoringServices.SpectatorVotesService.CreateVote | services/scoring/src/votes/spectator-votes.service.ts:22-70 | the whole call as the serial model says, with every refusal |
| ScoringServices.SpectatorVotesService.GetSummary | services/scoring/src/votes/spectator-votes.service.ts:72-97 | the summary of an existing debate over the voters of both sides |
| ScoringServices.ScoringService.UpsertDebate | services/scoring/src/scoring/scoring.service.ts:41-60 | the row is written and the keyed job added exactly when VOTING opens |
| ScoringServices.ScoringService.ComputeFinalDebateScore | services/scoring/src/scoring/scoring.service.ts:103-161 | the stored row or the refusal the serial model gives, and a sound row for an analysis within its constraints |
| ScoringServices.DebateJobsProducer.EnqueueFinalization | services/scoring/src/jobs/debate-jobs.producer.ts:24-34 | the job is held afterwards and a held key is not added again |
| Elo.XpIsBasePlusTens | services/ranking/src/ranking/ranking.service.ts:348-355 | XP is 30, 20 or 10 for a win, a draw or a loss plus the nearest number of tens of the score, a half counting up |
| Elo.WinnerEarnsMore | services/ranking/src/ranking/ranking.service.ts:348-355 | for every sound final score the winner gets at least 20 XP more, and a draw pays both the same |
| Elo.EloDeltaRange | services/ranking/src/ranking/ranking.service.ts:363-370 | a win never costs, a loss never gains, and nothing moves more than 32 |
| Elo.EloDeltaMonotone | services/ranking/src/ranking/ranking.service.ts:363-370 | the same result is worth less to a stronger player or against a weaker opponent |
| Elo.BetterResultsPayMore | services/ranking/src/ranking/ranking.service.ts:357-370 | win, draw and loss are exactly 16 apart |
| EloSymmetry.EqualPlayers | services/ranking/src/ranking/ranking.service.ts:363-370 | between equal players a win is worth 16, a loss costs 16 and a draw changes nothing |
| EloSymmetry.FourHundredPointsAreTenToOne | services/ranking/src/ranking/ranking.service.ts:363-370 | 400 points more multiply the odds by ten, whatever the ratings |
| EloSymmetry.FavouriteBy400 | services/ranking/src/ranking/ranking.service.ts:363-370 | a favourite by 400 points wins 3 or loses 29, and the other player wins 29 or loses 3 |
| EloSymmetry.NeverHalfway | services/ranking/src/ranking/ranking.service.ts:363-370 | with 10 ** x and integer ratings the unrounded gain is never a whole number and a half, for any result |
| EloSymmetry.NegatedDeltaIsOwnDelta | services/ranking/src/ranking/ranking.service.ts:171-176 | for all integer ratings and results the negated delta is what the formula itself gives AGAINST |
| PlayerStats.ApplyDeltaSucceeds | services/profile/src/profile/profile.service.ts:146-169 | on a sound table a delta is refused exactly for negative XP or a negative final Elo, and the table stays sound |
| PlayerStats.WhatADeltaDoes | services/profile/src/profile/profile.repository.ts:157-189 | a successful delta moves XP and Elo by its amounts and adds one debate and one of the given result alone, in the row of its user alone; a missing row starts from 1000 Elo |
| PlayerStats.TotalIsRow | services/profile/src/db/schema.ts:22-54 | with one row per user, a user's total over the table is that row |
| SettlementProofs.EloIsConserved | services/ranking/src/ranking/ranking.service.ts:161-195 | in every run with failures and interleaving, total Elo differs from 1000 per player by at most 32 per Elo settlement that reached exactly one player, and not at all when there is none |
| SettlementProofs.HistoryNeverExceedsBalance | services/ranking/src/ranking/ranking.service.ts:100-159 | in every reachable state a player's XP and debates counter are at least what their history rows add up to, and (user, debate) has at most one row |
| SettledResults.ResultsArePaidFor | services/profile/src/profile/profile.repository.ts:170-181 | in every run a player's wins, losses and draws are how often settlements have paid that player for a win, a loss and a draw |
| SettledResults.ResultsMatchHistory | services/ranking/src/ranking/ranking.service.ts:100-217 | when all started settlements are complete, the count of each result is the player's history rows with that result plus the Elo settlements with it |
| SettledSources.PaymentsHaveSources | services/ranking/src/ranking/ranking.service.ts:100-195 | in every run a settlement was asked for its debate and its players in that order and pays by a final score the debate had: result and scores of the player's own side, XP by them, and Elo as the formula gives FOR from ratings the two players had, and its negative |
| SettledSources.HistoryHasSources | services/ranking/src/ranking/ranking.service.ts:131-152 | in every run each history row holds the result, the two scores and the XP of its own side of a final score the debate had, and an Elo delta that is 0 or such a value |
| SettledBooks.BooksBalance | services/ranking/src/ranking/ranking.service.ts:100-217 | when all started settlements are complete, in any interleaving, XP equals the history, the debates counter is the rows plus one per Elo settlement, and with at most one Elo settlement per debate Elo is 1000 plus the history |
| SettledBooks.HistoryRowsMirror | services/ranking/src/ranking/ranking.service.ts:131-152 | then the two rows of a debate have opposite results, swapped scores and Elo deltas that cancel |
| SettledRequests.AllGoThroughIffAffordable | services/ranking/src/ranking/ranking.service.ts:100-217 | when each debate is XP-settled once and Elo-settled at most once afterwards for the same pair, all requests go through if and only if no Elo request asks a player for more Elo than they then hold |
| SettledRequests.AffordableBooksBalance | services/ranking/src/ranking/ranking.service.ts:100-217 | for such requests XP equals the sum of xp_delta and Elo is 1000 plus the sum of elo_delta |
| SettledRequests.AffordableRowsMirror | services/ranking/src/ranking/ranking.service.ts:131-152 | and each debate has its two mirrored history rows |
| SettlementSerial.XpSettlesWhen | services/ranking/src/ranking/ranking.service.ts:112-152 | an XP settlement goes through if and only if neither player has a row for the debate |
| SettlementSerial.RepeatedXpPaysAgain | services/ranking/src/ranking/ranking.service.ts:112-152 | an XP settlement always pays both players, also when it then answers ALREADY_EXISTS and leaves the history as it was |
| SettlementSerial.RepeatedEloForgetsTheFirst | services/ranking/src/ranking/ranking.repository.ts:97-107 | Elo and history drift apart by exactly the elo_delta that a settlement overwrites |
| SettlementSerial.RefusedEloPaysOneSide | services/profile/src/profile/profile.service.ts:157-160 | an Elo settlement is refused exactly when the loser has less Elo than the loss, and total Elo has then grown by that loss |
| SettlementSerial.XpIsARun | services/ranking/src/ranking/ranking.service.ts:100-159 | an undisturbed XP settlement is an interleaved run, complete when it goes through |
| SettlementSerial.EloIsARun | services/ranking/src/ranking/ranking.service.ts:161-217 | an undisturbed Elo settlement is an interleaved run, complete when it goes through |
| RankingServices.ProfileRepository.ApplyStatsDelta | services/profile/src/profile/profile.repository.ts:157-189 | a missing row is inserted and then incremented; a violated check leaves the inserted row behind |
| RankingServices.ProfileService.ApplyPlayerStatsDelta | services/profile/src/profile/profile.service.ts:146-169 | the delta is applied as a whole or refused, and a sound table stays sound |
| RankingServices.ProfileService.UpsertPlayerStats | services/profile/src/profile/profile.service.ts:118-144 | refused exactly when a field is negative or the counts do not add up |
| RankingServices.RankingRepository.RecordPerformance | services/ranking/src/ranking/ranking.repository.ts:48-72 | a row is appended unless the user already has one for the debate |
| RankingServices.RankingRepository.UpdatePerformanceEloDelta | services/ranking/src/ranking/ranking.repository.ts:97-107 | the Elo column of the row is overwritten, or nothing happens without a row |
| RankingServices.RankingService.ComputeXpForDebateClose | services/ranking/src/ranking/ranking.service.ts:100-159 | the whole settlement as the serial model says, with its answer |
| RankingServices.RankingService.ComputeEloForDebateClose | services/ranking/src/ranking/ranking.service.ts:161-217 | the whole settlement as the serial model says, with its answer |
| RankingServices.RankingService.GetLeaderboard | services/ranking/src/ranking/ranking.service.ts:219-246 | a live cache entry is answered unchanged; otherwise the fresh leaderboard is built in a loop and stored unless the write fails |
| Leaderboards.WinrateIsExactIff | services/profile/src/profile/profile.service.ts:198-201 | the computed winrate is the exact half-up percentage if and only if wins over debates is none of the four shares |
| Leaderboards.TopStatsIsTop | services/profile/src/profile/profile.repository.ts:117-126 | the query answers min(limit, rows) rows in strict order, and every omitted row sorts after all of them |
| Leaderboards.TopIsUnique | services/profile/src/profile/profile.repository.ts:117-126 | only one list has that property, whatever order the table stores its rows in |
| Leaderboards.LeaderboardIsTop | services/ranking/src/ranking/ranking.service.ts:227-243 | the answer lists min(limit, players) players by Elo, XP and id with positions 1..n, one tier up per 200 Elo from 1200 to 2000 and the winrates of their debates; smaller limits give prefixes, omitted players rank below listed ones |
| Leaderboards.LeaderboardIgnoresStorageOrder | services/profile/src/profile/profile.repository.ts:117-126 | tables with the same rows have the same leaderboard |
| LeaderboardCache.AnswersWereStoredRecently | services/ranking/src/ranking/ranking.service.ts:219-246 | with profile read and cache write as separate steps, every answer is the fresh one at the moment some request read the profile service, and that request stored it at most 30 seconds before the answer, less for an answer from the cache, whatever cache operations fail |
| LeaderboardCache.AnswersAreAtMostThirtySecondsOld | services/ranking/src/ranking/ranking.service.ts:299-320 | so an answer is at most 30 seconds plus the longest time from a profile read to its cache write old |
| LeaderboardCache.CacheAnswersIffStoredRecently | services/ranking/src/ranking/ranking.service.ts:219-227 | a request is answered from the cache if and only if its read does not fail and the last board stored for its limit was stored less than 30 seconds ago, and then with that board; otherwise it reads the profile service |
| LeaderboardCache.RequestsKeepTheirLimit | services/ranking/src/ranking/ranking.service.ts:219-222 | every answer is for the limit its request named, or for 10 |
| Realtime.ChannelKeyIsInjective | services/gateway/src/realtime/realtime.service.ts:439-441 | channels share a key only if they are the same, for arbitrary ids |
| Realtime.PublishReaches | services/gateway/src/realtime/realtime.service.ts:169-191 | what each publication adds to each inbox; only a stream on both a room and a debate would get debate.started twice |
| Realtime.ChannelsServeHearing | services/gateway/src/realtime/realtime.service.ts:41-296 | the channels a stream joins meet those a publication goes to exactly when the stream should hear it: rooms hear what names them, debates their start, votes and result, users their own votes, leaderboards every update |
| Realtime.NoStreamHearsTwice | services/gateway/src/realtime/realtime.service.ts:41-296 | in every run a publication, both passes of publishDebateStarted included, adds exactly one message to each live stream that should hear it and none to any other |
| Realtime.InboxesAreOrdered | services/gateway/src/realtime/realtime.service.ts:410-416 | in every run each inbox starts with its only realtime.connected, counters rise strictly, and equal counters mean the same event |
| Realtime.StreamHearsExactly | services/gateway/src/realtime/realtime.service.ts:302-349 | from any state on, a new stream hears connected with its own kind, id and user, then exactly the publications it should hear and its own heartbeats, in order and once, until it unsubscribes |
| RealtimeServices.MapIsDetermined | services/gateway/src/realtime/realtime.service.ts:35-38 | the live streams and their channels determine the whole subscriber map, empty sets excluded |
| RealtimeServices.FirstOccurrencesAreASet | services/gateway/src/realtime/realtime.service.ts:427-437 | the unique channels are the same channels, each once |
| RealtimeServices.RealtimeService.UniqueChannels | services/gateway/src/realtime/realtime.service.ts:427-437 | the loop over keys keeps exactly the first occurrences |
| RealtimeServices.RealtimeService.AddSubscriber | services/gateway/src/realtime/realtime.service.ts:387-395 | exactly one pair of channel and stream is added |
| RealtimeServices.RealtimeService.RemoveSubscriber | services/gateway/src/realtime/realtime.service.ts:397-408 | exactly one pair is removed and no empty set is kept |
| RealtimeServices.RealtimeService.GetSubscriberCount | services/gateway/src/realtime/realtime.service.ts:298-300 | the number of live streams on the channel |
| RealtimeServices.RealtimeService.CreateStream | services/gateway/src/realtime/realtime.service.ts:302-349 | the map agrees with the streams again and the new inbox holds realtime.connected |
| RealtimeServices.RealtimeService.Unsubscribe | services/gateway/src/realtime/realtime.service.ts:342-347 | exactly that stream leaves all its channels |
| RealtimeServices.RealtimeService.PublishToChannels | services/gateway/src/realtime/realtime.service.ts:359-371 | the nested loops with their delivered set are one delivery pass, repeats in the list included |
| RealtimeServices.RealtimeService.PublishDebateStarted | services/gateway/src/realtime/realtime.service.ts:169-191 | two passes under two counters, the second only for a given debate id |
| RealtimeServices.RealtimeService.PublishResultPublished | services/gateway/src/realtime/realtime.service.ts:260-275 | one pass to whichever of room and debate is given |
| OpenRouter.CreateChatCompletion | packages/ai/src/openrouter.ts:34-126 | whatever each exchange does, the loop ends at the first one that is not an abort, a network error, 429 or a server error, or at attempt maxRetries + 1, answers with the text that exchange delivered or the error that fits it, and sleeps 250, 500, 500, ... in between, at most 500 times maxRetries |
| OpenRouter.WhatAnAttemptYields | packages/ai/src/openrouter.ts:63-126 | an attempt yields the string at choices[0].message.content of a 2xx answer, and otherwise the one error that fits: time-out, network, HTTP with its status, no JSON, or no content |
| OpenRouter.LastIsUnique | packages/ai/src/openrouter.ts:50-60 | only one attempt can be the one after which the loop ends |
| OpenRouter.DelaysAddUp | packages/ai/src/openrouter.ts:51-53 | without a retry nothing is slept, and n >= 1 retries sleep 500 n - 250 in total |
| OpenRouter.ValidatePayload | packages/ai/src/openrouter.ts:128-153 | the scan accepts exactly non-empty lists of messages with a known role and at least one character that is not white space |
| OpenRouter.TrimIsEmptyIffBlank | packages/ai/src/openrouter.ts:142 | trimming leaves nothing exactly when every character is white space |

## Left out

- Wiring: controllers, gRPC and HTTP clients, request schemas, modules, migrations and configuration. Their validated ranges are preconditions, such as two different users in a settlement (contracts/ranking/src/ranking.ts:36-45).
- The web application, authentication, cookies and password hashing.
- Doubles outside 2 ** -64 to 2 ** 64, which no quotient of two counts reaches, and the doubles inside `XpDelta` and `WeightedScore`, whose quotients by 10 and by 2 are rounded exactly here.
- NeverHalfway: exact arithmetic; the rounding of `10 ** x` and of the division to doubles is not modelled.
- NegatedDeltaIsOwnDelta: likewise for exact arithmetic. `10 ** x` is any positive monotone function; the lemmas of `EloSymmetry` also use that 10 ** (x + y) is 10 ** x times 10 ** y and that 10 ** 1 is 10.
- Integer column overflow, which would be one more failing statement.
- Response bodies assembled from rows, such as the question text of a room or replay.
- Timestamps, the clock part of realtime message ids, and ordering by `joined_at`, `sent_at` or `transitioned_at`: rows are kept in commit order.
- The lengths of timeouts and of the finalisation delay: a pending timeout may go off at any later moment.
- Row identifiers and the answer of `randomQuestion` are parameters or names of calls; player ids are natural numbers ordered like the id column.
- The queue's later removal of finished jobs and re-entry from a subscriber's own handler. A queue only ignores a key it holds.
- The process restart of the debate service drops timers and suspended calls; `onApplicationShutdown` itself is not modelled.
- Profile create, update and delete, performance history paging and `getRandomRecentDebateForVoting`: single queries.
- Text columns of the AI analysis, event payloads beyond the ids that route them, error message texts and the JSON form of cached leaderboards.
- Direct `recordPerformance` and `upsertPlayerStats` calls during settlement runs: they would change balances or history on purpose.
- Prompt texts, message redaction and the validator of replay output.
- A link between debate rooms and scoring debates: the services share no state and their enums differ.
- RealtimeService: subscribers are positions in a list of streams rather than heap objects, so identity is modelled and aliasing of a subscriber is not.
- CreateChatCompletion: what each exchange meets is a parameter; headers, the request body, the time-out itself and the model name of the answer are not modelled.
