# Drawing-and-bluffing game server: a verified model

The server runs a party game in rooms. In every round each player draws a prompt, the others
invent fake prompts for the drawing, everybody votes for the prompt they believe in, and a
leader clicks through the reveal. A room is a single-writer actor: it takes joins, leaves,
inputs, timeouts and heartbeats off one inbox, and moves a game through a plan of phases.

This project models that actor together with the pipeline that runs inside it, and proves what
its code and documents promise, over every input and every run.

- `Room.dfy` is the actor, one method per handler, with the phase runner whose two halves call
  each other. What each handler does is stated exactly, as a function of the whole room or a
  relation between the room before and after (`RoomSteps`, `Cascades`, `RoomPlay`, `RoomClock`).
  The invariant is `RoomInvariants.Good`; `Steps`, `Runs` and `WholeRuns` carry it from one
  message to whole runs.
- `Records.dfy` is the record of a game: results by phase, how they depend on one another, and
  the score ledger over them. `Rounds.dfy` says what a finished round on record satisfies, and
  `RoundsInRuns.dfy` ties it to the messages of the run that left it there.
- `Permissions`, `FilingsInRuns`, `PhaseFlow`, `SeatsInRuns` and `PointsInRuns` say, over whole
  runs and without the functions the handlers are specified by, which messages take effect, where
  what players hand in comes to stand, which message ends a phase and where that leads, who sits
  where, and which vote pays whom. `Payouts` and `Offers` do the same for one drawing: what
  everybody earns on it, and what its ballot and its reveal offer, text by text.
- `Collectors`, `RoundCollectors`, `Merge`, `Conservation`, `Scores`, `RevealSteps` and
  `Aggregates` are the round pipeline: fakes, ballot, votes, reveal, scores, reveal queue.
- `Client.dfy` is the browser's reducer. The room keeps, as ghost state, the list of frames it
  has broadcast in the session; folding the reducer over it gives the view of a client that
  received them all, and the room's invariant says what that view holds.
- `Phases.dfy`, `Idempotency.dfy` and `Shuffle.dfy` are the phase plan with its names and
  parsers, the ring of seen message ids, and the client's seeded shuffle.
- `Witnesses.dfy` plays the games, message by message on a new room, in which the program does
  less than it says.

Go map iteration is an arbitrary order throughout (`Prelude.AnyOrder`). UUIDs come from a
supply that never repeats and never yields the empty string or "TRUE". The clock is a parameter
of every handler; nothing is assumed about it except where a lemma says so. Prompt dictionary
entries are assumed to differ after trimming and lower-casing, and to be at least twelve, which
is twice the largest number of generated fakes.

## How the pieces fit

`Steps.Handled` is the transition relation of a room: for every message, exactly what its handler
does, through all the phases that follow at once (`Cascades`), down to the frames broadcast. It
says nothing about the invariant. `Runs.Loop` shows that the actor, fed any list of messages, goes
through a sequence of rooms related by it. `Steps.HandledIsNext` shows that from a room in good
order every such step leads to one in good order and moves it only as `Steps.Next` says; by
induction this holds along every run, and the theorems in `WholeRuns` and the modules about runs
beside it are proved from it.

The clock of a phase has three histories. It is *regular* if the timer was armed at phase start
and every pause so far was taken with time left; for these, time is conserved exactly. It is
*leaked* if the phase began while the room was paused: the timer was armed all the same. It is
*dead* if there is no timer, because the phase is untimed or because the timer was lost. The
lemmas of `RoomClock` and `WholeRuns` say exactly when each arises.

## Where the code does less than it says

- A pause taken in the lobby does not stop the timer armed at game start, and the timeout
  handler does not look at the pause: `LobbyPauseLeaks`, `TimeoutIgnoresPause`,
  `LobbyPauseDoesNotHold`. In a timed phase a paused game fails to be frozen exactly if the phase
  began paused and the leader has switched nothing since: `PausedWithTimerIff`.
- A pause taken when the deadline has passed leaves a timed phase without a timer:
  `LatePauseLosesTimer`. Time is conserved exactly if every pause of the phase came before the
  deadline: `TimeIsConserved`, and `TimerIsLostIff` for one pause and resume.
- When everybody leaves, the leader's post becomes vacant and a reconnect does not fill it:
  `LoneLeaderReturnsWithoutPost`, `ReconnectKeepsPostIff`.
- The drawing collector compares all items, also those of departed players, with the number of
  connected players, and so may close over someone who has yet to draw:
  `DrawingClosesOverSomeone`, and exactly when: `DrawingsCloseExactly`, `AdvanceSkipsSomeoneIff`.
- A co-author of a merged fake can vote for it under the other author's id, and is paid for it:
  `TwinsAreAccepted`, `CoAuthorsCanVoteForThemselves`, and exactly when: `SelfVoteIff`.
- The share of a generated fake is paid to the empty player id: `NobodysShareIsLost`.
- docs/DESIGN.md:63 gives the number of rounds as half the players rounded up, at least three;
  the code uses the configured round count whenever it is positive, which after normalisation it
  always is. The comment on BuildPhases promises an empty plan without players; the code builds
  the full plan. The model follows the code.

## Model

| member | source | states |
|---|---|---|
| WholeRuns.AlwaysGood | internal/room/room.go:335-352 | Every state a new room can reach by any messages satisfies the room's invariant: proved by induction over what each message does exactly, none of which mentions the invariant |
| WholeRuns.RunsBeginEmpty | internal/room/room.go:155-173 | A run begins with nobody in an idle, unpaused room, at one round, no generated fakes, and 60, 90 and 20 seconds to draw, to write a fake and to vote |
| WholeRuns.ScoreLedger | internal/room/room.go:901-1026 | In every state a new room can reach by any messages, a player's score is the sum of their deltas over the scoring results on record, is never negative, and is what every client shows |
| WholeRuns.PhasePrefix | internal/room/room.go:926-1026 | In every reachable state the record holds exactly the results of the phases before the current one, each of its phase's kind and right for the results it was computed from; a game rests only in a drawing, fake, voting or leaderboard phase, in the round that phase belongs to; a game is in progress exactly if there is a current primitive, and it is the one for the phase |
| WholeRuns.FinishedRoundsAreStored | internal/room/room.go:1013-1018 | Every finished round stays on record in full, so that the statements about recorded rounds apply to it |
| WholeRuns.DependenciesAreStored | internal/games/drawful/phases.go:59-110 | When a phase is current, everything it and all earlier phases name in DependsOn is on record |
| WholeRuns.LobbyIsClean | internal/room/room.go:719-752 | Connected means holding a socket; an idle room without the post-game latch has no phases, results or scores; the latch implies idle, all phases done, and that no game can start |
| WholeRuns.GamesStartFromScratch | internal/room/room.go:665-672 | An idle room starts a game with a message exactly if that message is a ready or a leave of a known player that leaves at least three connected players, every connected one ready, counted on the seats the message leaves; the game starts out of the lobby this message leaves, which holds nothing of an earlier game; everyone has zero points and is drawing, and the plan has seven phases for each configured round; a leave in the lull after a game starts nothing |
| WholeRuns.GameOnlyGrows | internal/room/room.go:1006-1026 | Over any stretch of a game, phases are never undone, no result but a prompt changes, nobody's score drops, and the pair (phases left, reveal steps left) never grows |
| WholeRuns.PushesMakeProgress | internal/room/room.go:816-826 | Every timeout and every accepted advance_reveal strictly lowers that pair, for the rest of the game |
| WholeRuns.TimeoutsAreBounded | internal/room/room.go:816-826 | The number of timeouts in a game is at most the number of phases left |
| WholeRuns.CursorCountsClicks | internal/room/room.go:1221-1230 | On one leaderboard the cursor is the number of accepted clicks since arrival; nothing else moves it, the queue or the record |
| WholeRuns.LeavingTakesOneMore | internal/room/room.go:1195-1231 | Leaving a leaderboard takes exactly (length of the queue) + 1 accepted clicks |
| WholeRuns.ArrivesBlank | internal/room/room.go:975-997 | A leaderboard is always entered with no step shown |
| WholeRuns.ClientsFollow | client/src/store.ts:251-285 | After n accepted clicks a client that got all frames holds exactly the eliminations and finals of the first n steps, and its all-revealed flag is up iff n is the length of the queue |
| WholeRuns.ClickTurnsScreens | client/src/store.ts:251-285 | A click that shows a step sends exactly the frame of the step at the cursor, and turns every screen to its drawing |
| WholeRuns.FrozenStaysFrozen | internal/room/room.go:759-766 | A paused game without a running timer keeps its phase, results, scores, cursor and remaining time through any messages but the leader's resume and the reset of an abandoned room |
| WholeRuns.LobbyPauseLeaks | internal/room/room.go:979-983 | In every run, a game begins paused exactly if the room was paused, and begins with its timer running in either case: a pause taken in the lobby freezes nothing |
| WholeRuns.TimeoutIgnoresPause | internal/room/room.go:816-826 | A due timer moves the game on to a later phase, paused or not |
| WholeRuns.PausedWithTimerIff | internal/room/room.go:979-983 | In a timed phase, a paused game has a running timer exactly if the phase began paused and the leader has switched nothing since |
| WholeRuns.AccountIsUnpausedTime | internal/room/room.go:1134-1172 | In a timed phase that began unpaused, as long as every pause was taken before the timer's deadline, the time accounted as spent is the wall time that passed while unpaused, over any sequence of pauses and resumes |
| WholeRuns.TimeIsConserved | internal/room/room.go:1134-1172 | Under that condition the unpaused time passed and the time remaining add up to the phase's duration; otherwise, after the first pause taken too late, the phase has neither a timer nor time put by until it ends |
| WholeRuns.PhaseHasItsTime | internal/room/room.go:970-983 | In every run: when a phase begins that the game rests in, its timer is set to now plus the room's drawing, fake or voting seconds, in the second, third and fourth phase of a round, and the leaderboard has no timer |
| WholeRuns.RegularIff | internal/room/room.go:1134-1172 | The account of a timed phase that began unpaused is valid exactly if every pause so far came before the deadline |
| WholeRuns.LeaderStays | internal/room/room.go:649-661 | A leader leads until their own leave or the reset of an abandoned room |
| WholeRuns.PostStaysFilled | internal/room/room.go:549-560 | As long as nobody reconnects, a connected joiner implies a leader |
| WholeRuns.LoneLeaderReturnsWithoutPost | internal/room/room.go:450-468 | The exception: a leader who leaves an otherwise empty room and reconnects is connected, in the join order, and nobody leads |
| Runs.Loop | internal/room/room.go:185-198 | The actor loop over any list of messages: the room goes through a sequence of states, each the exact effect of one message on the one before |
| Runs.Serve | internal/room/room.go:155-198 | A newly constructed room, fed any list of messages, goes through such a run and ends in its last world |
| Runs.Step | internal/room/room.go:335-352 | One message of any kind, dispatched to its handler, does exactly what is specified for it, frame by frame, and keeps the invariant |
| Steps.HandledIsNext | internal/room/room.go:335-352 | Whatever the message, the invariant is kept, the clock, the leader, the board and the score move only as stated, and the collector only gains: within a phase it holds what was received, and leaving the phase stores exactly that |
| Steps.StartIsNext | internal/room/room.go:665-672 | A ready or leave that starts a game begins it out of the lobby it leaves |
| Steps.TraceIsBeat | internal/room/room.go:828-847 | However many default inputs a heartbeat submits, it keeps the invariant, continues the game, leaves seats, leader and pause alone, loses nothing from the collector and adds only items of absent players |
| Cascades.StartRests | internal/room/room.go:926-1004 | From any good point between phases, the phase runner comes to rest at the position given by the phase kind and the connected players, invariant kept and nothing on record lost |
| Cascades.AdvanceRests | internal/room/room.go:1006-1026 | A fitting decision to advance is put on record, its frames sent, and the room comes to rest as computed |
| Cascades.BegunRests | internal/room/room.go:901-924 | A game begins in the first drawing phase, with a prompt for everyone connected and for nobody else |
| Rooms.Room.constructor | internal/room/room.go:155-173 | A new room satisfies the invariant |
| Rooms.Room.StartPhase | internal/room/room.go:926-1004 | From any point between phases the cascade ends (phases left decrease), keeps the invariant, and rests at the position given by the phase kind and the connected players |
| Rooms.Room.Apply | internal/room/room.go:1006-1026 | A decision that does not advance only broadcasts; one that does is put on record with its frames sent, and the room comes to rest as computed with nothing on record lost |
| Rooms.Room.EnterPhase | internal/room/room.go:959-990 | Announcing a phase: round read off the name, fresh primitive, deadline and timer armed whatever the pause says, cursor cleared |
| Rooms.Room.GameOver | internal/room/room.go:927-957 | Game end: idle, latch set, everyone unready, scores and record kept, no timer |
| Rooms.Room.InitRevealSteps | internal/room/room.go:1339-1352 | The leaderboard's cursor walks the ordered queue of the stored reveal, and is absent iff there is nothing to reveal |
| Rooms.Room.StartPrompts | internal/games/drawful/phase_prompt.go:15-35 | What was dealt and announced is what is on record when the cascade rests |
| Rooms.Room.StartReveal | internal/games/drawful/phase_reveal.go:24-135 | What is on record is the reveal of the round, with the "..." due for those absent at that moment |
| Rooms.Room.StartScoring | internal/primitives/scoretransform.go:34-51 | The deltas on record are the points of the round's reveal, and round_result announced them with the totals they make |
| Rooms.Room.StartVotes | internal/games/drawful/phase_vote.go:35-41 | The voting phase never ends at its start, and what it broadcasts is a correct ballot for every drawing |
| Rooms.Room.OnReconnect | internal/room/room.go:450-468 | Exact new state of a reconnect, in any status; the leader does not change |
| Rooms.Room.OnJoin | internal/room/room.go:481-568 | Exact new state of a fresh join, its two refusals, and the reset of an abandoned room, which happens even if the name is then refused |
| Rooms.Room.OnLeave | internal/room/room.go:631-673 | Exact new state of a departure with promotion, and the start of a game if the departure makes everybody left ready |
| Rooms.Room.PickLeader | internal/room/room.go:677-684 | The earliest entry of the join order who is connected |
| Rooms.Room.AllReadyAndEnough | internal/room/room.go:886-899 | The counting loop decides: at least three connected and all of them ready |
| Rooms.Room.OnStartGame | internal/room/room.go:901-924 | The plan is accepted by the validator, and the game rests at the first drawing phase |
| Rooms.Room.OnReady | internal/room/room.go:718-752 | Ready outside the lobby is refused; the first ready after a game clears it away; a game starts iff the lobby can start |
| Rooms.Room.HandleSetPause | internal/room/room.go:1120-1175 | Only the leader switches; exact new clock on pause and on resume; asking for the current state changes nothing |
| Rooms.Room.HandleSetPencilsDown | internal/room/room.go:1180-1193 | Only the leader switches the draw lock, and nothing else changes |
| Rooms.Room.HandleAdvanceReveal | internal/room/room.go:1200-1231 | Refused as `CheckAdvance` says; an accepted click shows the next step, or leaves when there is none, with strict progress; the room is otherwise as it was |
| Rooms.Room.CheckAdvance | internal/room/room.go:1200-1220 | A click is accepted exactly from the leader, in a game, on a leaderboard, while not paused |
| Rooms.Room.HandleUpdateSettings | internal/room/room.go:1233-1260 | Refusals; settings are clamped and everyone has to ready up again |
| Rooms.Room.HandleRerollPrompt | internal/room/room.go:1262-1302 | Accepted exactly in a drawing phase that is not paused, from a holder of a prompt of the round who has neither rerolled nor drawn in it by the room's notes; the prompt on record is replaced by a dictionary entry |
| Rooms.Room.OnSubmitDrawing | internal/room/room.go:754-801 | Accepted iff the guards and the collector allow it; filed under a new id with the prompt its author holds on record; the phase ends iff the items reach the number of eligible connected players |
| Rooms.Room.OnSubmitFake | internal/room/room.go:754-801 | Accepted iff the guards and the collector allow it; the phase ends iff every connected player has a fake for every drawing of others |
| Rooms.Room.OnSubmitVote | internal/room/room.go:754-801 | Accepted iff the guards and the collector allow it; the phase ends iff every connected player has a vote for every drawing of others |
| Rooms.Room.OnTimeout | internal/room/room.go:816-826 | Without a game nothing happens; in a game the phase closes with exactly what its collector holds, paused or not, and the game makes progress |
| Rooms.Room.OnTick | internal/room/room.go:828-847 | A heartbeat is a sequence of accepted default inputs of players absent past the grace; each such player gets one turn: the phase ends, or they have no input left to give in the drawing phase, or there is a drawing of someone else on which nothing more can be submitted for them (the default goes to one drawing a heartbeat), or there is no such drawing; nothing happens while paused or outside a game |
| Rooms.Room.DrawingOfSomeoneElse | internal/games/drawful/defaults.go:72-76 | The scan finds a drawing by somebody else, and none exactly if there is none |
| Rooms.Room.PickChoice | internal/games/drawful/defaults.go:77-85 | A default vote is for a choice open to that player |
| RoomInvariants.PromotionPicksEarliest | internal/room/room.go:677-684 | Promotion finds the earliest joiner still connected, and nobody iff no joiner is connected |
| RoomInvariants.NormalizedIsOk | internal/room/room.go:393-425 | Normalised settings are in range, and settings in range are left alone |
| RoomInvariants.StoredIsAtDoor | internal/room/room.go:1013-1025 | Storing a fitting result and moving on keeps record, ledger and clients right |
| RoomInvariants.RestAtStep | internal/room/room.go:926-1026 | A phase that advances at its start leads to the same resting place |
| RoomSteps.SnapshotIsNoNews | internal/room/room.go:578-627 | A state_update never changes what an up-to-date client shows |
| RoomSteps.ResetDropsNobody | internal/room/room.go:499-524 | The reset of an abandoned room never drops a connected player |
| RoomSteps.StartNeedsCleanLobby | internal/room/room.go:747-749 | No game can start while the post-game latch is up |
| RoomSteps.ReconnectKeepsPostIff | internal/room/room.go:450-468 | A reconnect leaves joiners who are here without a leader exactly when the post was vacant and the player is in the join order |
| RoomSteps.DepartureFillsPost | internal/room/room.go:644-661 | A departure fills the post if anybody can fill it, and changes it only for the leader's own |
| RoomClock.PauseIsGood | internal/room/room.go:1134-1158 | Any accepted pause in a game stops the phase timer |
| RoomClock.PauseConservesTime | internal/room/room.go:1134-1172 | A pause with time left: spent plus put by is the duration, and the deadline moves by the length of the pause |
| RoomClock.TimerIsLostIff | internal/room/room.go:1161-1167 | A pause and resume lose a running timer exactly when it had no deadline on the books or the deadline had passed; the timed phase is then without a timer |
| RoomClock.TimerTellsClock | internal/room/room.go:970-983 | Unpaused, a timed phase has no timer iff its clock is dead; a regular timer goes off when the duration has been spent |
| RoomPlay.DrawingsCloseExactly | internal/primitives/collectall.go:82-128 | With all submitters still eligible and connected, the drawing phase closes early iff they are all; with departures it skips someone exactly when departed items outnumber the surplus |
| RoomPlay.StepIsGood | internal/room/room.go:1357-1387 | One click moves every client on by that step and lowers the steps left |
| RoomPlay.ButtonTellsTheNextClick | client/src/components/LeaderControls.tsx:24 | On every client the button says next round iff no step is left on the server |
| RoomPlay.BoardAddsUp | client/src/screens/LeaderboardRound.tsx:16-26 | Once all is shown, each player's running total on every client is the round's delta on record, which round_result announced |
| RoomPlay.TimerNeedsGame | internal/room/room.go:816-820 | A timer only runs in a game, in a collecting phase, with its collector in place: the guard at the head of the timeout handler never fires on a timer |
| RoomPlay.AdvanceIsProgress | internal/room/room.go:1006-1026 | Moving on strictly reduces what is left and costs nobody points |
| RoomPlay.ClickIsProgress | internal/room/room.go:1221-1230 | An accepted click, whether it shows a step or leaves the board, keeps the invariant and strictly reduces what is left |
| Rounds.RevealMatchesBallot | internal/games/drawful/phase_reveal.go:38-118 | For every round on record and any right ballot for its drawings and fakes: every line is revealed with its id and text, and at most the unvoted "..." is added |
| RoundsInRuns.BallotSeenIsRevealed | internal/games/drawful/phase_reveal.go:38-118 | In every run: the ballot that clients show at any time of a voting phase is the one revealed: once the reveal is over, every line on screen is among the choices on record, with its id and text, and at most the "..." is added |
| Rounds.EveryVoteCountsOnce | internal/games/drawful/phase_reveal.go:90-104 | For every round on record: all recorded votes are counted, each under exactly one choice, the true one iff it was for the truth |
| RoundsInRuns.AcceptedVoteIsKept | internal/games/drawful/phase_vote.go:92-154 | In every run: a vote accepted from its voter is in the collector until the phase ends and on record from then on, for the rest of the game |
| RoundsInRuns.AcceptedVoteCountsOnce | internal/games/drawful/phase_reveal.go:90-104 | In every run: a vote accepted from its voter is, in every later state of the game past the round's reveal, on record and listed under exactly one choice, the true one iff it was for the truth |
| RoundsInRuns.RecordedVoteWasCast | internal/games/drawful/phase_vote.go:156-158 | In every run: every vote a finished voting phase has left on record was submitted and accepted, or came with a heartbeat at which its voter was absent past the grace |
| RoundsInRuns.RevealIsOfTheAbsent | internal/games/drawful/phase_reveal.go:41-60 | In every run: when a leaderboard comes up, every drawing's reveal on record is the one for its fakes, its votes and the players as they are, so that "..." is credited to the room's absent players who owe a fake, and to nobody else |
| RoundsInRuns.PresentHoldPrompts | internal/games/drawful/phase_prompt.go:15-35 | In every run: when a drawing phase begins, everyone connected holds a prompt for the round, and nobody else does |
| Rounds.RoundPaysAtMost | internal/games/drawful/phase_scoring.go:30-52 | The deltas of a round on record add up to at most 2000 points per recorded vote |
| Rounds.DrawingOnRecordPays | internal/games/drawful/phase_scoring.go:30-52 | For every drawing on record and every player: 1000 for each recorded vote for the truth if they drew it, 1000 for each such vote of their own, and floor(500 v / n) for each entry of theirs among the n authors of a fake with v voters |
| Rounds.RoundPaysInFull | internal/games/drawful/phase_scoring.go:24-52 | The deltas of a round on record are, for every player, the sum of just these amounts over the drawings of the round |
| Rounds.AuthorEarns | internal/games/drawful/phase_scoring.go:42-51 | The author of a fake choice with v voters and n authors earns on that drawing exactly floor(500 v / n) plus 1000 for each vote of theirs for the truth |
| PointsInRuns.TrueVotePays | internal/games/drawful/phase_scoring.go:33-40 | In every run: an accepted vote for the truth adds 1000 to its voter and 1000 to the drawer in the round's deltas, compared with the same round without that vote, and nothing to anybody else |
| PointsInRuns.FakeVotePays | internal/games/drawful/phase_scoring.go:42-51 | In every run: an accepted vote for a fake is among the v voters of a fake choice of the drawing, and each of its n authors earns floor(500 v / n) there, plus 1000 for each vote of theirs for the truth |
| Payouts.TrueVoteAdds | internal/games/drawful/phase_scoring.go:33-40 | What anybody earns on a drawing with one more vote for the truth: 1000 more for the voter and for the drawer, the same for all others |
| Payouts.OneShare | internal/games/drawful/phase_scoring.go:42-51 | No player is an author of two choices of a drawing, so an author's only share is that of their choice |
| Records.KeysAreNames | internal/games/drawful/phases.go:24-26 | Two results share a printed name iff they are of the same phase; the name gives back the round and the kind |
| Records.StoreResult | internal/room/room.go:1013-1018 | Storing a fitting result extends a good record by exactly that phase |
| Records.StoreLedger | internal/primitives/scoretransform.go:39-51 | A scoring result stored after its points were applied keeps the ledger balanced |
| Records.RerollKeeps | internal/games/drawful/phase_prompt.go:37-57 | Replacing a prompt touches no other result |
| Aggregates.DistributePrompts | internal/games/drawful/phase_prompt.go:15-35 | Every connected player gets a prompt, no two the same, and each is announced as recorded |
| Aggregates.RevealRound | internal/games/drawful/phase_reveal.go:24-135 | One reveal per drawing, right for its fakes and votes, each broadcast once |
| Aggregates.ScoreAndApply | internal/games/drawful/phase_scoring.go:22-77 | Deltas are the round's points; scores grow by them; the totals announced beforehand are the scores after the clamp |
| Merge.VotingChoices | internal/games/drawful/phase_vote.go:56-84 | The ballot of a drawing: the truth and one line per merged text |
| Merge.DefaultFakes | internal/games/drawful/phase_reveal.go:41-60 | One "..." for each absent player who owes a fake for the drawing, under new ids |
| Merge.Buckets | internal/games/drawful/phase_reveal.go:62-73 | Grouping by normalised text, leaving out texts equal to the prompt |
| Merge.FakeToChoice | internal/games/drawful/phase_reveal.go:92-102 | The index leads every member of a group to the group's first id, and the truth to itself, in any map order |
| Merge.ChoiceVoters | internal/games/drawful/phase_reveal.go:104-113 | The voters of a choice are those who voted for any member of its group |
| Merge.RevealDrawing | internal/games/drawful/phase_reveal.go:38-126 | The whole reveal of one drawing meets its specification |
| Conservation.BallotAndRevealAgree | internal/games/drawful/phase_reveal.go:38-118 | Ballot and reveal offer the same choices; at most the unvoted "..." is extra |
| Conservation.VoteLandsOnce | internal/games/drawful/phase_reveal.go:90-118 | An accepted vote is listed in exactly one choice |
| Conservation.VotesAreConserved | internal/games/drawful/phase_reveal.go:90-118 | The voters over all choices are as many as the votes |
| Conservation.DrawerStaysOut | internal/games/drawful/phase_vote.go:120-122 | The drawer is neither voter nor fake author on their drawing |
| Conservation.SoleAuthorNeverVotes | internal/games/drawful/phase_vote.go:124-140 | A fake with a single author never has that author as voter |
| Conservation.SelfVoteIff | internal/games/drawful/phase_vote.go:127-136 | A voter is listed as author and voter of one choice exactly when they share its text with the fake they chose |
| Conservation.DrawingPaysPerAcceptedVote | internal/games/drawful/phase_scoring.go:30-52 | A drawing pays between zero and 2000 points per vote tallied on it |
| Conservation.RevealIdsAreUnique | internal/games/drawful/phase_reveal.go:75-88 | The choice ids of a reveal are distinct |
| Witnesses.LobbyPauseDoesNotHold | internal/room/room.go:979-983 | A new room, three players, a pause in the lobby: the game begins paused with its timer running, and when the timer goes off the paused game is in the next phase |
| Witnesses.LatePauseLosesTimer | internal/room/room.go:1161-1167 | A new room, three players, a pause and resume at the deadline: the drawing phase goes on, timed by its plan, without a timer |
| Witnesses.DrawingClosesOverSomeone | internal/primitives/collectall.go:100 | A new room, four players: two draw, one of them leaves, the third draws; the drawing phase is over although the fourth is connected, holds a prompt and has not drawn |
| Witnesses.TwinsAreAccepted | internal/games/drawful/phase_fake.go:92-117 | With Ann, Bea and Cal connected, Bea's CAT and Cal's cat are both accepted for Ann's drawing |
| Witnesses.CoAuthorsCanVoteForThemselves | internal/games/drawful/phase_vote.go:127-136 | Bea's vote for Cal's fake is then accepted, and in the reveal it earns Bea 250 points |
| Scores.ScoreRound | internal/games/drawful/phase_scoring.go:24-52 | The nested loops compute each player's round points, in any map order, never negative; what these points are, vote by vote, is said by `Rounds.RoundPaysInFull` |
| Scores.AnnouncedTotals | internal/games/drawful/phase_scoring.go:54-66 | The announced totals |
| Scores.ApplyDeltas | internal/primitives/scoretransform.go:39-45 | Adding with a floor at zero |
| Scores.AnnouncedIsApplied | internal/primitives/scoretransform.go:39-45 | With deltas that are not negative the floor is never used and the announced totals are the new scores |
| Scores.ChoicesConservePoints | internal/games/drawful/phase_scoring.go:30-52 | What all players earn on a drawing is the sum of the totals of its choices |
| Scores.ChoiceTotalBounds | internal/games/drawful/phase_scoring.go:44-51 | Splitting a fake's credit loses less than one point per author |
| Scores.NobodysShareIsLost | internal/games/drawful/phase_fake.go:175-181 | The share of a generated fake is paid to the empty player id: players get the total less that share |
| RevealSteps.BuildRevealSteps | internal/games/drawful/reveal_steps.go:28-119 | The queue is strictly ordered, eliminates every fake once, finishes every drawing once, pays in total what the round pays, and every award is one that is due, for its reason: drawer_truth, guesser_truth or faker_fool |
| RevealSteps.Sort | internal/games/drawful/reveal_steps.go:45 | Ascending and a permutation |
| RevealSteps.TwoScorersAgree | internal/games/drawful/reveal_steps.go:62-117 | For any well-formed queue: final deltas, awards and scoring deltas agree for every player |
| RevealSteps.QueueHasNoRepeats | internal/games/drawful/reveal_steps.go:103-117 | No step occurs twice, no drawing is finished twice |
| Client.ReplayStep | client/src/store.ts:251-285 | The next frame of the queue moves the view on by exactly that step; the duplicate guard never drops one |
| Client.AllRevealedIff | client/src/screens/LeaderboardRound.tsx:28 | All revealed iff the whole queue has been shown |
| Client.RunningTotalIsRoundDelta | client/src/screens/LeaderboardRound.tsx:16-26 | Folding the shown deltas gives the scoring phase's deltas |
| Collectors.CollectAll.Start | internal/primitives/collectall.go:71-80 | Ends at once iff nobody is eligible |
| Collectors.CollectAll.Handle | internal/primitives/collectall.go:82-108 | Accepts one item per eligible player; advances iff all items reach the eligible count |
| Collectors.AdvanceIsExactWithoutDepartures | internal/primitives/collectall.go:100 | Without departures the count is exact |
| Collectors.AdvanceSkipsSomeoneIff | internal/primitives/collectall.go:100 | With departures it skips someone iff the departed outnumber the surplus |
| Collectors.AllSubmitted | internal/games/drawful/phase_fake.go:136-154 | The nested counting loop is the quantifier: something is owed and all of it is there |
| Collectors.Regroup | internal/games/drawful/phase_vote.go:192-197 | Per-player maps become per-drawing lists without loss or repeats, in any map order |
| RoundCollectors.FakeCollect.Start | internal/games/drawful/phase_fake.go:43-65 | Never advances; shows the drawings |
| RoundCollectors.FakeCollect.Handle | internal/games/drawful/phase_fake.go:67-120 | Refused exactly for the listed reasons; otherwise recorded under a new id; advances iff complete |
| RoundCollectors.FakeCollect.Timeout | internal/games/drawful/phase_fake.go:122-126 | Ends the phase with what has come in |
| RoundCollectors.FakeCollect.Finalize | internal/games/drawful/phase_fake.go:160-191 | Every drawing gets its collected fakes, each once, and the generated ones |
| RoundCollectors.GeneratedFakeTexts | internal/games/drawful/phase_fake.go:193-213 | The retry loop draws at most once and yields exactly count texts, different from each other and the truth |
| RoundCollectors.GeneratedFakesStayApart | internal/games/drawful/phase_fake.go:175-181 | No two generated fakes share a merged choice |
| RoundCollectors.StoredFakesAreGood | internal/games/drawful/phase_fake.go:92-117 | Stored fakes: never the drawer's, never the truth, one per player |
| RoundCollectors.VoteCollect.Start | internal/games/drawful/phase_vote.go:35-41 | Never advances; shows a ballot per drawing |
| RoundCollectors.VoteCollect.Handle | internal/games/drawful/phase_vote.go:92-154 | Refused exactly for the listed reasons; otherwise recorded; advances iff complete |
| RoundCollectors.VoteCollect.Timeout | internal/games/drawful/phase_vote.go:156-158 | Ends the phase with what has come in |
| RoundCollectors.StoredVotesAreGood | internal/games/drawful/phase_vote.go:120-153 | Stored votes: one per voter and drawing, never the drawer's, for the truth or somebody else's fake |
| RoundCollectors.NextPrompts | internal/games/drawful/prompts.go:186-211 | n entries from different places of the dictionary |
| Text.GateMatchesMerge | internal/games/drawful/phase_reveal.go:137-139 | The fake gate and the merge agree on when two texts are the same |
| Text.TrimmedInFull | internal/games/drawful/phase_reveal.go:137-139 | Trimming takes off all the space at both ends and nothing else |
| Text.SpacesListed | internal/games/drawful/phase_reveal.go:137-139 | What counts as space: the eight characters of it below U+0100 |
| Text.LowerLetters | internal/games/drawful/phase_reveal.go:137-139 | Lowering maps each capital letter to its small one and leaves all else |
| Text.LeIsLexicographic | internal/games/drawful/reveal_steps.go:45 | The order of ids: a prefix comes first, otherwise the first difference decides |
| Phases.RoundFromPhaseName | internal/room/room.go:1416-1438 | The room's parser, specified on every string |
| Phases.RoundFromPhase | internal/games/drawful/defaults.go:104-120 | The game's parser agrees with the room's on every string, up to the value of a miss |
| Phases.RoundIsSuffix | internal/room/room.go:1416-1438 | The number read off a string is that of the digits behind a final _r |
| Phases.NoSuffixNoRound | internal/room/room.go:1416-1438 | A string that does not end in _r and digits has no number |
| Phases.ParsersInvertPrinter | internal/games/drawful/phases.go:24-26 | Both parsers invert the printer |
| Phases.NamesAreInjective | internal/games/drawful/phases.go:24-26 | Names of different phases differ |
| Phases.PrefixTellsKind | internal/room/room.go:1085-1099 | The prefix tests recognise exactly their own kind |
| Phases.BuildPhases | internal/games/drawful/phases.go:31-112 | Seven phases for each configured round (without a configured number, half the players rounded up, at least three); the second, third and fourth of a round last as configured, or 60, 90 and 20 seconds, and the others have no limit |
| Phases.PhaseInFull | internal/games/drawful/phases.go:58-110 | Position by position of any plan: the title, the round, the printed name, and the printed names of the phases needed |
| Phases.ValidatePhaseSequence | internal/engine/startup.go:8-29 | Accepts iff names are non-empty and unique and every dependency is strictly earlier |
| Phases.PlansAreWellFormed | internal/engine/startup.go:8-29 | Every plan of the builder is accepted |
| Idempotency.Ring.Seen | internal/gateway/idempotency.go:28-46 | Answers yes iff one of the last 128 accepted entries has the id and is no older than 60 seconds; otherwise records it |
| Idempotency.RepeatsAreFarApart | internal/gateway/idempotency.go:31-45 | Two acceptances of one id within the TTL have at least 128 acceptances between them |
| Idempotency.StretchIsDistinct | internal/gateway/idempotency.go:31-45 | ... which are pairwise different under a monotone clock |
| Idempotency.RingIsIdealIff | internal/gateway/idempotency.go:31-45 | The ring answers like an unbounded log exactly when no live entry of the id has been overwritten |
| Shuffle.ShuffleStable | client/src/util/shuffle.ts:10-24 | The in-place loop stays in range, keeps every intermediate below 2^53, and yields what drawing without replacement yields, the generator saying which element goes to the last free place; in particular the last element is the one at (1664525 h + 1013904223) mod 2^32 mod n for the hash h of the seed string |
| Shuffle.HashSteps | client/src/util/shuffle.ts:12-15 | The hash of nothing is 0, and each further code unit u turns h into (31 h + u) mod 2^32 |
| Shuffle.ShuffleStep | client/src/util/shuffle.ts:16-22 | With next = (1664525 seed + 1013904223) mod 2^32, position i gets the element at next mod (i + 1), nothing above i moves, and below i the shuffle goes on with the element of place i in the vacated place |
| Shuffle.ShuffleDraws | client/src/util/shuffle.ts:16-22 | The in-place shuffle is drawing without replacement, for every sequence and seed |
| Shuffle.ThreeUnderEmptySeed | client/src/util/shuffle.ts:10-24 | Under the empty seed string a, b, c come out as c, a, b |
| Shuffle.ShuffledIsPermutation | client/src/util/shuffle.ts:16-22 | The result is a permutation of the input |
| Shuffle.ShuffleIsPositional | client/src/util/shuffle.ts:10-24 | The order depends on length and seed alone, never on the elements |
| FilingsInRuns.AcceptedDrawingIsKept | internal/games/drawful/phase_drawing.go:20-43 | In every run: a drawing accepted from its author, under a new id and with the prompt the author held on record at that moment, is in the collector until the phase ends and on record from then on |
| FilingsInRuns.HeldDrawingWasFiled | internal/games/drawful/phase_drawing.go:20-43 | In every run: every drawing in the collector was filed in this phase, by its author or by a heartbeat at which the author was absent past the grace, with the prompt the author held then |
| FilingsInRuns.RecordedDrawingWasFiled | internal/games/drawful/defaults.go:27-38 | In every run: the same for every drawing a finished drawing phase has left on record, defaults included |
| FilingsInRuns.AcceptedFakeIsKept | internal/games/drawful/phase_fake.go:96-119 | In every run: a fake accepted from its author, under a new id and trimmed, is in the collector until the phase ends and on record from then on |
| FilingsInRuns.RecordedFakeWasWritten | internal/games/drawful/defaults.go:40-63 | In every run: every fake with an author that a finished phase has left on record was submitted and accepted, or is the "..." of a player who was absent past the grace at a heartbeat |
| FilingsInRuns.DecoysAreOnRecord | internal/games/drawful/phase_fake.go:169-182 | In every run: a finished phase of fakes leaves each drawing with exactly as many generated fakes as configured, from the dictionary, different from the prompt and from each other, credited to nobody |
| Permissions.ClickTakesEffectIff | internal/room/room.go:1200-1231 | In every run: a click changes anything exactly if it comes from the leader, in a game, on a leaderboard, while not paused |
| Permissions.PauseTakesEffectIff | internal/room/room.go:1120-1178 | In every run: a pause or resume changes anything exactly if it comes from the leader and is not the case already; then the room is as asked |
| Permissions.LockTakesEffectIff | internal/room/room.go:1180-1193 | In every run: the draw lock is as the leader asks, nobody else moves it, and nothing else of the state changes |
| Permissions.SettingsTakeEffectIff | internal/room/room.go:393-425 | In every run: settings change exactly by the leader's request in a lobby without a finished game on show; then nobody is ready, and each setting is as asked within its range (rounds 1 to 10, generated fakes 0 to 6, 15 to 300, 15 to 300 and 10 to 180 seconds), with the stated values for what is out of it |
| Permissions.SeatTakesEffectIff | internal/room/room.go:718-752 | In every run: a ready changes anything exactly for a player of an idle room, and a leave exactly for a player of the room |
| Permissions.TimerTakesEffectIff | internal/room/room.go:816-826 | In every run: a timeout changes anything exactly in a game with a timer that is due |
| Permissions.DrawingTakesEffectIff | internal/room/room.go:754-801 | In every run: a drawing is taken exactly in a drawing phase, unpaused and unlocked, from a holder of a prompt of the round with no drawing in |
| Permissions.FakeTakesEffectIff | internal/proto/validate.go:146-158 | In every run: a fake is taken exactly in its phase, unpaused, for a drawing of somebody else, with 1 to 80 characters after trimming, not reading like the prompt, as the first of its author for the drawing |
| Permissions.VoteTakesEffectIff | internal/games/drawful/phase_vote.go:108-152 | In every run: a vote is taken exactly in its phase, unpaused, on a drawing of somebody else, for the truth or a fake by somebody else, as the first of its voter on the drawing |
| Permissions.NotesAreHistory | internal/room/room.go:1262-1302 | In every run: the room's notes of who has drawn and who has rerolled in a round are the history of the game's messages that had that effect |
| Permissions.RerollTakesEffectIff | internal/room/room.go:1262-1302 | In every run: a reroll changes anything exactly in a drawing phase, unpaused, for a holder of a prompt of the round who has had neither a reroll nor a drawing accepted in that round of the game |
| Permissions.RerollIssues | internal/room/room.go:1281-1301 | In every run: a reroll replaces that player's prompt on record by one of the dictionary and tells them that one; nothing else on record changes |
| SeatsInRuns.PlacesAreKept | internal/room/room.go:526-560 | In every run without a reset: places in the join order are never lost or reordered |
| SeatsInRuns.PlaceWasTaken | internal/room/room.go:526-560 | In every run without a reset: whoever has place n took it by joining, as a new player, when exactly n others had |
| SeatsInRuns.LeaderIsSucceeded | internal/room/room.go:644-684 | In every run: when the leader leaves, the first in the join order who is here leads, and nobody only if none of them is |
| SeatsInRuns.AwayPlayersLeft | internal/room/room.go:631-648 | In every run: whoever is not connected has left, has not been back since, and was last seen then |
| SeatsInRuns.AbsentIff | internal/room/room.go:828-847 | In every run: a player gets defaults exactly when more than 60 seconds have passed since they last left and they have not been back |
| SeatsInRuns.ReadyIsOwnWord | internal/room/room.go:718-752 | In every run: nobody is ready but by their own word |
| SeatsInRuns.ControlsStay | internal/room/room.go:1120-1260 | In every run: pause, draw lock and settings change by nothing but the leader's own word, or the reset of an abandoned room |
| SeatsInRuns.GameKeepsSettings | internal/room/room.go:1233-1260 | In every run: a game is played through under the settings and the dictionary it began with |
| PhaseFlow.VoteEndsPhaseIff | internal/games/drawful/phase_vote.go:160-187 | In every run: an accepted vote ends the phase exactly if with it every connected player has a vote on every drawing of others, and somebody owed one |
| PhaseFlow.FakeEndsPhaseIff | internal/games/drawful/phase_fake.go:128-158 | In every run: an accepted fake ends the phase exactly if with it every connected player has a fake for every drawing of others, and somebody owed one |
| PhaseFlow.DrawingEndsPhaseIff | internal/primitives/collectall.go:82-128 | In every run: an accepted drawing ends the phase exactly if with it the items reach the number of connected players who hold a prompt |
| PhaseFlow.NextPhaseIs | internal/room/room.go:926-1026 | In every run: where a submission, timeout or click that ends a phase leads, position by position, depending only on whether anybody is connected and on the length of the plan; past the last phase the game is over |
| RoundsInRuns.BallotSeenInFull | internal/games/drawful/phase_vote.go:56-84 | In every run, at any time of a voting phase: the ballot on screen for a drawing has the truth last, in the words of its prompt; each other line is a fake on record that is the first with its text, under its id and in its words; every such fake has a line; and no two lines read alike, whatever their case and spacing |
| RoundsInRuns.BoardInFull | internal/games/drawful/phase_reveal.go:38-126 | In every run, when a leaderboard comes up: every fake on record, and the "..." of an absent player who owes one, has its text among a drawing's choices, no two choices read alike, the truth comes last, and a fake choice credits exactly those who wrote its text, or who owe a fake and are absent if it reads "..." |
| Offers.BallotInFull | internal/games/drawful/phase_vote.go:56-84 | The same of any right ballot |
| Offers.RevealInFull | internal/games/drawful/phase_reveal.go:60-94 | The same of any right reveal |
| Offers.CreditIsDue | internal/games/drawful/phase_reveal.go:46-58 | Who is credited with a fake choice of any right reveal |

## Left out

- The actor's fields are one record-valued field of the class, updated field by field, instead of
  separate fields; players are entries of a map rather than objects. Aliasing of these with
  outside code is therefore not captured. The collectors are objects with fields of their own.
- Demo eviction, panic recovery, shutdown and the test-only start and snapshot messages: they
  bypass the state the invariants speak about.
- Sockets, inbox capacity, dropped frames, JSON, payload validation and the frames that no
  modelled client value depends on (join_ack, pause_state, leader_change, error replies).
- The session store: a reconnect arrives with the player id its token stands for, a fresh join
  with a new id; a name arrives after cleaning, or as a refusal.
- Drawing content: whether the strokes are within their limits is a parameter of the submission.
- The step timer, its remaining time and gap steps: nothing that can be reached arms that timer.
- Phase timers fire at their time or later; the model does not say how much later.
- Unicode: text is trimmed and folded over ASCII, on which EqualFold and ToLower agree.
- Integer overflow in the two phase-name parsers: numbers are unbounded.
- Records key results by kind and round instead of the printed name; `Records.KeysAreNames` shows
  that this is the same thing.
- Aggregates.DistributePrompts: does not fix the texts when there are more players than dictionary
  entries, because the program panics there.
- Collectors.AllSubmitted: stands for the counting loops of both round collectors, which are the
  same in the source; `Merge.Buckets` likewise for the ballot's and the reveal's grouping, and
  `Collectors.FindDrawing` for the scan in both handlers.
- RevealSteps.Sort: an insertion sort stands for the library's sort, of which only the result is
  used.
- FirstValid, TurnBased, the account store and logging: unused by the game.
- React screens beyond the two derived values: all revealed, and the running deltas. Of the drawing a
  screen turns to, only the effect of a click is stated (`ClickTurnsScreens`).
