/** The phase runner as a relation between worlds: what starting a phase and acting on a
    decision do, exactly, through all the phases that follow at once. */
module Cascades {
  import opened Prelude
  import opened Game
  import opened RoundCollectors
  import opened Client
  import opened Records
  import opened RoomInvariants
  import opened RoomSteps
  import opened Aggregates
  import P = Phases

  /** The cursor at the head of the queue of the round's reveal, if there is anything to show. */
  ghost predicate CursorStarts(stepState: Option<StepState>, data: PhaseData, round: nat) {
    && CursorOk(stepState, data, round)
    && (stepState.Some? ==> stepState.value.idx == 0 && stepState.value.round == round)
  }

  /** The primitive of the phase just announced in `m` starts: `d` is its decision, and `n` the
      world after what it did on the side. */
  ghost predicate Starts(m: World, n: World, d: Decision) {
    var drawings, fakes := DrawingsIn(m.s.phaseData, m.s.round), FakesIn(m.s.phaseData, m.s.round);
    match P.KindAt(m.s.phaseIdx)
    case PromptDistribute => n == m && d.advance && IsDeal(d, m.s.players, m.dict)
    case DrawingSubmit => n == m && d == if Drawers(m.s.players, m.s.phaseData, m.s.round) == {} then NO_DRAWINGS else STAY
    case FakePromptSubmit => n == m && d == Decision(false, [DrawingsShown(drawings)], None)
    case Voting =>
      n == m && exists ballot :: AreBallots(ballot, drawings, fakes) && d == Decision(false, [BallotShown(ballot)], None)
    case Reveal => n == m.(issued := n.issued) && m.issued <= n.issued && d.advance && RevealsRound(d, m.s)
    case Scoring =>
      && n == m.(s := m.s.(scores := n.s.scores)) && d.advance
      && IsScoring(d, RevealsIn(m.s.phaseData, m.s.round), m.s.scores, n.s.scores)
    case Leaderboard =>
      && n == m.(s := m.s.(stepState := n.s.stepState)) && d == STAY
      && CursorStarts(n.s.stepState, m.s.phaseData, m.s.round)
  }

  /** With nobody to draw, the drawing phase ends as it starts. */
  const NO_DRAWINGS: Decision := Decision(true, [], Some(DrawingsResult(map[])))

  ghost function PhasesLeft(w: World): nat {
    if w.s.phaseIdx <= |w.s.phases| then |w.s.phases| - w.s.phaseIdx else 0
  }

  /** The phase runner takes the room from `w` to `t`: the game ends, or the phase is announced,
      starts, and its first decision is acted on. */
  ghost predicate StartsPhase(w: World, t: World, now: int)
    decreases PhasesLeft(w), 2
  {
    if w.s.phaseIdx >= |w.s.phases| then t == Finished(w)
    else BeginsPhase(Announced(w, now), t, now)
  }

  ghost predicate BeginsPhase(m: World, t: World, now: int)
    decreases PhasesLeft(m), 1
  {
    exists n, d ::
      && Starts(m, n, d)
      && n.s.phases == m.s.phases && n.s.phaseIdx == m.s.phaseIdx
      && Applies(n, d, t, now)
  }

  /** Acting on decision `d` in `w`: its frames are sent; if it advances, its result is put on
      record and the next phase is started. */
  ghost predicate Applies(w: World, d: Decision, t: World, now: int)
    decreases PhasesLeft(w), 0
  {
    if !d.advance then t == w.(sent := w.sent + d.events)
    else w.s.phaseIdx < |w.s.phases| && d.result.Some? && StartsPhase(Stored(w, d), t, now)
  }

  lemma Began(m: World, n: World, d: Decision, t: World, now: int)
    requires Starts(m, n, d) && n.s.phases == m.s.phases && n.s.phaseIdx == m.s.phaseIdx && Applies(n, d, t, now)
    ensures BeginsPhase(m, t, now)
  {
  }

  ghost function RestOf(s: State): nat {
    RestAt(s.phaseIdx, |s.phases|, s.players, s.phaseData)
  }

  // ----- what the cascade keeps -----

  /** From any good point between two phases the runner comes to rest where the kind of phase
      and the players present say, with the invariant intact and nothing lost. */
  lemma StartRests(w: World, t: World, now: int)
    requires AtDoor(w) && StartsPhase(w, t, now)
    ensures Rested(w, t, RestOf(w.s), now)
    decreases PhasesLeft(w), 3
  {
    if w.s.phaseIdx >= |w.s.phases| {
      FinishedRests(w, now);
    } else {
      AnnouncedIsEntered(w, now);
      BeginRests(Announced(w, now), t, now);
      AnnouncedPasses(w, t, RestOf(w.s), now);
    }
  }

  lemma BeginRests(m: World, t: World, now: int)
    requires Entered(m) && JustBegun(m.watch, m.s, now) && BeginsPhase(m, t, now)
    ensures Rested(m, t, RestOf(m.s), now)
    decreases PhasesLeft(m), 2
  {
    var n, d :| Starts(m, n, d) && n.s.phases == m.s.phases && n.s.phaseIdx == m.s.phaseIdx && Applies(n, d, t, now);
    match P.KindAt(m.s.phaseIdx)
    case PromptDistribute => PromptsRest(m, d, t, now);
    case DrawingSubmit => DrawingRests(m, d, t, now);
    case FakePromptSubmit => QuietStart(m, d.events, now);
    case Voting => BallotRests(m, d, t, now);
    case Reveal => RevealRests(m, n, d, t, now);
    case Scoring => ScoringRests(m, n, d, t, now);
    case Leaderboard => LeaderboardStart(m, n.s.stepState, now);
  }

  /** A decision to advance is acted on without loss. */
  lemma AdvanceRests(w: World, d: Decision, t: World, now: int)
    requires Decided(w, d) && d.advance && Applies(w, d, t, now)
    ensures OnRecord(w, d, t) && Rested(w, t, NextRest(w.s, d.result.value), now)
    decreases PhasesLeft(w), 0
  {
    AppliesStarts(w, d, t, now);
    StartRests(Stored(w, d), t, now);
    StoredPasses(w, d, t, now);
  }

  lemma AppliesStarts(w: World, d: Decision, t: World, now: int)
    requires Decided(w, d) && d.advance && Applies(w, d, t, now)
    ensures AtDoor(Stored(w, d)) && StartsPhase(Stored(w, d), t, now) && PhasesLeft(Stored(w, d)) < PhasesLeft(w)
    ensures RestOf(Stored(w, d).s) == NextRest(w.s, d.result.value)
  {
    StoredIsAtDoor(w, d);
  }

  lemma DealDecided(m: World, d: Decision)
    requires Entered(m) && P.KindAt(m.s.phaseIdx) == P.PromptDistribute && IsDeal(d, m.s.players, m.dict)
    ensures Decided(m, d) && NextRest(m.s, d.result.value) == RestOf(m.s)
  {
    DealsAreQuiet(d, m.s.players, m.dict);
    PromptsDecided(m, d);
    RestAtStep(m.s, d.result.value);
  }

  lemma PromptsRest(m: World, d: Decision, t: World, now: int)
    requires Entered(m) && P.KindAt(m.s.phaseIdx) == P.PromptDistribute && Starts(m, m, d) && Applies(m, d, t, now)
    ensures Rested(m, t, RestOf(m.s), now)
    decreases PhasesLeft(m), 1
  {
    DealDecided(m, d);
    AdvanceRests(m, d, t, now);
  }

  lemma NoDrawingsDecided(m: World)
    requires Entered(m) && P.KindAt(m.s.phaseIdx) == P.DrawingSubmit
    requires Drawers(m.s.players, m.s.phaseData, m.s.round) == {}
    ensures Decided(m, NO_DRAWINGS) && NextRest(m.s, NO_DRAWINGS.result.value) == RestOf(m.s)
  {
    CollectedDecided(m, NO_DRAWINGS);
    RestAtStep(m.s, NO_DRAWINGS.result.value);
  }

  lemma DrawingRests(m: World, d: Decision, t: World, now: int)
    requires Entered(m) && P.KindAt(m.s.phaseIdx) == P.DrawingSubmit && JustBegun(m.watch, m.s, now)
    requires Starts(m, m, d) && Applies(m, d, t, now)
    ensures Rested(m, t, RestOf(m.s), now)
    decreases PhasesLeft(m), 1
  {
    if Drawers(m.s.players, m.s.phaseData, m.s.round) == {} {
      NoDrawingsDecided(m);
      AdvanceRests(m, d, t, now);
    } else {
      QuietStart(m, [], now);
    }
  }

  lemma BallotRests(m: World, d: Decision, t: World, now: int)
    requires Entered(m) && P.KindAt(m.s.phaseIdx) == P.Voting && JustBegun(m.watch, m.s, now)
    requires Starts(m, m, d) && Applies(m, d, t, now)
    ensures Rested(m, t, RestOf(m.s), now)
  {
    var ballot :| AreBallots(ballot, DrawingsIn(m.s.phaseData, m.s.round), FakesIn(m.s.phaseData, m.s.round))
                  && d == Decision(false, [BallotShown(ballot)], None);
    VotingStart(m, ballot, now);
  }

  lemma RoundRevealDecided(m: World, n: World, d: Decision)
    requires Entered(m) && P.KindAt(m.s.phaseIdx) == P.Reveal && Starts(m, n, d)
    ensures Decided(n, d) && NextRest(n.s, d.result.value) == RestOf(m.s)
  {
    var drawings, fakes := DrawingsIn(m.s.phaseData, m.s.round), FakesIn(m.s.phaseData, m.s.round);
    RevealedAll(d.result.value.revealed, drawings, fakes, VotesIn(m.s.phaseData, m.s.round), m.s.players);
    MoreIdsKeepEntered(m, n.issued);
    var ds :| d.events == RevealEvents(ds) && AreReveals(ds, d.result.value.revealed);
    RevealDecided(n, d, ds);
    RestAtStep(n.s, d.result.value);
  }

  lemma RevealRests(m: World, n: World, d: Decision, t: World, now: int)
    requires Entered(m) && P.KindAt(m.s.phaseIdx) == P.Reveal && Starts(m, n, d) && Applies(n, d, t, now)
    ensures Rested(m, t, RestOf(m.s), now)
    decreases PhasesLeft(m), 1
  {
    RoundRevealDecided(m, n, d);
    AdvanceRests(n, d, t, now);
    MoreIdsPass(m, n.issued, t, now);
  }

  lemma RoundScoreDecided(m: World, n: World, d: Decision)
    requires Entered(m) && P.KindAt(m.s.phaseIdx) == P.Scoring && Starts(m, n, d)
    ensures Decided(n, d) && NextRest(n.s, d.result.value) == RestOf(m.s)
  {
    ScoringDecided(m, d, n.s.scores);
    RestAtStep(n.s, d.result.value);
  }

  lemma ScoringRests(m: World, n: World, d: Decision, t: World, now: int)
    requires Entered(m) && P.KindAt(m.s.phaseIdx) == P.Scoring && Starts(m, n, d) && Applies(n, d, t, now)
    ensures Rested(m, t, RestOf(m.s), now)
    decreases PhasesLeft(m), 1
  {
    RoundScoreDecided(m, n, d);
    AdvanceRests(n, d, t, now);
    ScoresPass(m, d.result.value.deltas, n.s.scores, t, RestOf(m.s), now);
  }

  // ----- the deal -----

  /** Everyone who is here holds a prompt for the round, and nobody else does; the prompts are
      from the dictionary and, as far as that goes, no two the same. */
  ghost predicate AllDealt(w: World, round: nat) {
    var prompts, here := PromptsIn(w.s.phaseData, round), ConnectedSet(w.s.players);
    prompts.Keys == here && (|here| <= |w.dict| ==> ArePrompts(prompts, w.dict))
  }

  lemma DealHolds(w: World, t: World, now: int)
    requires w.s.phaseIdx < |w.s.phases| && P.KindAt(w.s.phaseIdx) == P.PromptDistribute && t.s.status == InGame
    ensures AtDoor(w) && StartsPhase(w, t, now) ==> AllDealt(t, P.RoundAt(w.s.phaseIdx))
  {
    if AtDoor(w) && StartsPhase(w, t, now) {
      AnnouncedIsEntered(w, now);
      BegunDealHolds(Announced(w, now), t, now);
    }
  }

  lemma BegunDealHolds(m: World, t: World, now: int)
    requires Entered(m) && P.KindAt(m.s.phaseIdx) == P.PromptDistribute && BeginsPhase(m, t, now)
    ensures t.s.status == InGame ==> AllDealt(t, P.RoundAt(m.s.phaseIdx))
  {
    var n, d :| Starts(m, n, d) && Applies(n, d, t, now);
    DealDecided(m, d);
    AdvanceRests(m, d, t, now);
    RecordedDeal(m, d, t);
  }

  lemma RecordedDeal(m: World, d: Decision, t: World)
    requires OnRecord(m, d, t) && P.KindAt(m.s.phaseIdx) == P.PromptDistribute && IsDeal(d, m.s.players, m.dict)
    ensures t.s.players == m.s.players && t.dict == m.dict ==> AllDealt(t, P.RoundAt(m.s.phaseIdx))
  {
  }

  /** The drawing phase of a round is entered only from the leaderboard of the last, with the deal
      just made. */
  lemma NextDeal(w: World, d: Decision, t: World, now: int)
    requires Decided(w, d) && d.advance && Applies(w, d, t, now) && Rests(P.KindAt(w.s.phaseIdx))
    ensures t.s.status == InGame && P.KindAt(t.s.phaseIdx) == P.DrawingSubmit ==>
              AllDealt(t, P.RoundAt(t.s.phaseIdx)) && P.KindAt(w.s.phaseIdx) == P.Leaderboard
  {
    if t.s.status == InGame {
      RestsWithinPlan(w, d, t, now);
      StoredIsAtDoor(w, d);
      AppliesOn(w, d, t, now);
      DealAfterBoard(w, d, t, now);
    }
  }

  lemma DealAfterBoard(w: World, d: Decision, t: World, now: int)
    requires Rests(P.KindAt(w.s.phaseIdx)) && d.result.Some? && t.s.status == InGame && w.s.phaseIdx < |w.s.phases|
    requires t.s.phaseIdx == NextRest(w.s, d.result.value) < |w.s.phases| && |w.s.phases| % P.PHASES_PER_ROUND == 0
    ensures AtDoor(Stored(w, d)) && StartsPhase(Stored(w, d), t, now) && P.KindAt(t.s.phaseIdx) == P.DrawingSubmit ==>
              AllDealt(t, P.RoundAt(t.s.phaseIdx)) && P.KindAt(w.s.phaseIdx) == P.Leaderboard
  {
    DrawingFollowsBoard(w.s, d.result.value, t.s);
    if P.KindAt(t.s.phaseIdx) == P.DrawingSubmit {
      DealHolds(Stored(w, d), t, now);
    }
  }

  lemma AppliesOn(w: World, d: Decision, t: World, now: int)
    requires d.advance && Applies(w, d, t, now)
    ensures d.result.Some? && StartsPhase(Stored(w, d), t, now)
  {
  }

  lemma RestsWithinPlan(w: World, d: Decision, t: World, now: int)
    requires Decided(w, d) && d.advance && Applies(w, d, t, now) && t.s.status == InGame
    ensures t.s.phaseIdx == NextRest(w.s, d.result.value) < |w.s.phases| && |w.s.phases| % P.PHASES_PER_ROUND == 0
  {
    AdvanceRests(w, d, t, now);
  }

  lemma DrawingFollowsBoard(s: State, result: PhaseResult, t: State)
    requires Rests(P.KindAt(s.phaseIdx)) && s.phaseIdx < |s.phases| && |s.phases| % P.PHASES_PER_ROUND == 0
    requires t.phaseIdx == NextRest(s, result) && t.phaseIdx < |s.phases|
    ensures P.KindAt(t.phaseIdx) == P.DrawingSubmit ==>
              && P.KindAt(s.phaseIdx + 1) == P.PromptDistribute && s.phaseIdx + 1 < |s.phases|
              && P.KindAt(s.phaseIdx) == P.Leaderboard
              && P.RoundAt(s.phaseIdx + 1) == P.RoundAt(t.phaseIdx)
  {
  }

  // ----- the reveal -----

  /** The reveals on record are those of the round, with "..." for the players who are absent. */
  ghost predicate RevealedNow(s: State, round: nat) {
    RevealedFor(RevealsIn(s.phaseData, round), DrawingsIn(s.phaseData, round).Keys, DrawingsIn(s.phaseData, round),
                FakesIn(s.phaseData, round), VotesIn(s.phaseData, round), s.players)
  }

  lemma RevealHolds(w: World, t: World, now: int)
    requires w.s.phaseIdx < |w.s.phases| && P.KindAt(w.s.phaseIdx) == P.Reveal && t.s.status == InGame
    ensures AtDoor(w) && StartsPhase(w, t, now) ==> RevealedNow(t.s, P.RoundAt(w.s.phaseIdx))
  {
    if AtDoor(w) && StartsPhase(w, t, now) {
      AnnouncedIsEntered(w, now);
      BegunRevealHolds(Announced(w, now), t, now);
    }
  }

  lemma BegunRevealHolds(m: World, t: World, now: int)
    requires Entered(m) && P.KindAt(m.s.phaseIdx) == P.Reveal && BeginsPhase(m, t, now) && t.s.status == InGame
    ensures RevealedNow(t.s, P.RoundAt(m.s.phaseIdx))
  {
    var n, d :| Starts(m, n, d) && Applies(n, d, t, now);
    RoundRevealDecided(m, n, d);
    AdvanceRests(n, d, t, now);
    RoundIsStored(m.s.phaseData, m.s.phaseIdx, m.issued);
    RecordedReveal(m, n, d, t);
  }

  lemma RoundIsStored(data: PhaseData, i: nat, issued: set<string>)
    requires DataOk(data, i, issued) && P.KindAt(i) == P.Reveal
    ensures {Key(P.DrawingSubmit, P.RoundAt(i)), Key(P.FakePromptSubmit, P.RoundAt(i)), Key(P.Voting, P.RoundAt(i))} <= data.Keys
  {
    assert KeyAt(i - 1) == Key(P.Voting, P.RoundAt(i)) && KeyAt(i - 2) == Key(P.FakePromptSubmit, P.RoundAt(i));
    assert KeyAt(i - 3) == Key(P.DrawingSubmit, P.RoundAt(i));
  }

  lemma RecordedReveal(m: World, n: World, d: Decision, t: World)
    requires var r := P.RoundAt(m.s.phaseIdx);
             && m.s.round == r
             && {Key(P.DrawingSubmit, r), Key(P.FakePromptSubmit, r), Key(P.Voting, r)} <= m.s.phaseData.Keys
    requires P.KindAt(m.s.phaseIdx) == P.Reveal && Starts(m, n, d) && OnRecord(n, d, t)
    requires KeepsAll(n.s.phaseData, t.s.phaseData) && t.s.players == n.s.players
    ensures RevealedNow(t.s, P.RoundAt(m.s.phaseIdx))
  {
  }

  /** A leaderboard is entered only with the reveal just made. */
  lemma NextReveal(w: World, d: Decision, t: World, now: int)
    requires Decided(w, d) && d.advance && Applies(w, d, t, now) && Rests(P.KindAt(w.s.phaseIdx))
    ensures t.s.status == InGame && P.KindAt(t.s.phaseIdx) == P.Leaderboard ==>
              RevealedNow(t.s, P.RoundAt(t.s.phaseIdx))
  {
    if t.s.status == InGame {
      RestsWithinPlan(w, d, t, now);
      StoredIsAtDoor(w, d);
      AppliesOn(w, d, t, now);
      RevealAfterVoting(w, d, t, now);
    }
  }

  lemma RevealAfterVoting(w: World, d: Decision, t: World, now: int)
    requires Rests(P.KindAt(w.s.phaseIdx)) && d.result.Some? && t.s.status == InGame && w.s.phaseIdx < |w.s.phases|
    requires t.s.phaseIdx == NextRest(w.s, d.result.value) < |w.s.phases| && |w.s.phases| % P.PHASES_PER_ROUND == 0
    ensures AtDoor(Stored(w, d)) && StartsPhase(Stored(w, d), t, now) && P.KindAt(t.s.phaseIdx) == P.Leaderboard ==>
              RevealedNow(t.s, P.RoundAt(t.s.phaseIdx))
  {
    BoardFollowsVoting(w.s, d.result.value, t.s);
    if P.KindAt(t.s.phaseIdx) == P.Leaderboard {
      RevealHolds(Stored(w, d), t, now);
    }
  }

  lemma BoardFollowsVoting(s: State, result: PhaseResult, t: State)
    requires Rests(P.KindAt(s.phaseIdx)) && s.phaseIdx < |s.phases| && |s.phases| % P.PHASES_PER_ROUND == 0
    requires t.phaseIdx == NextRest(s, result) && t.phaseIdx < |s.phases|
    ensures P.KindAt(t.phaseIdx) == P.Leaderboard ==>
              && P.KindAt(s.phaseIdx + 1) == P.Reveal && s.phaseIdx + 1 < |s.phases|
              && P.RoundAt(s.phaseIdx + 1) == P.RoundAt(t.phaseIdx)
  {
  }

  // ----- a game begins -----

  /** Out of the lobby `w` a game has begun: its plan is drawn up and its first phase started. */
  ghost predicate Begun(w: World, t: World, now: int) {
    exists phases ::
      && P.IsPlan(phases, w.s.settings) && |phases| == P.PHASES_PER_ROUND * w.s.settings.roundCount
      && StartsPhase(Started(w, phases), t, now)
  }

  /** A game begins in the drawing phase of its first round. */
  lemma BegunRests(w: World, t: World, now: int) returns (phases: seq<P.Phase>)
    requires CleanLobby(w) && CanStart(w.s.players) && Begun(w, t, now)
    ensures P.IsPlan(phases, w.s.settings) && |phases| == P.PHASES_PER_ROUND * w.s.settings.roundCount
    ensures 1 < |phases| && Rested(Started(w, phases), t, 1, now) && AllDealt(t, 1)
  {
    phases :| P.IsPlan(phases, w.s.settings) && |phases| == P.PHASES_PER_ROUND * w.s.settings.roundCount
              && StartsPhase(Started(w, phases), t, now);
    StartRestsAtFirst(w, phases, t, now);
    FirstDeal(w, phases, t, now);
  }

  lemma FirstDeal(w: World, phases: seq<P.Phase>, t: World, now: int)
    requires CleanLobby(w) && P.IsPlan(phases, w.s.settings) && 1 < |phases| && StartsPhase(Started(w, phases), t, now)
    ensures t.s.status == InGame ==> AllDealt(t, 1)
  {
    if t.s.status == InGame {
      StartedIsAtDoor(w, phases);
      DealHolds(Started(w, phases), t, now);
    }
  }

  lemma StartRestsAtFirst(w: World, phases: seq<P.Phase>, t: World, now: int)
    requires CleanLobby(w) && CanStart(w.s.players) && P.IsPlan(phases, w.s.settings)
    requires |phases| == P.PHASES_PER_ROUND * w.s.settings.roundCount && StartsPhase(Started(w, phases), t, now)
    ensures 1 < |phases| && Rested(Started(w, phases), t, 1, now)
  {
    assert |phases| >= P.PHASES_PER_ROUND;
    StartedIsAtDoor(w, phases);
    StartRests(Started(w, phases), t, now);
    SomeoneIsHere(w.s.players);
    FirstRest(w.s.players, |phases|);
  }

  lemma SomeoneIsHere(players: Players)
    requires CanStart(players)
    ensures ConnectedSet(players) != {}
  {
  }
}
