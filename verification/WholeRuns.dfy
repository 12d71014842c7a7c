/** What holds over whole runs of a room, whatever the messages, their order and their times. */
module WholeRuns {
  import opened Prelude
  import opened Game
  import opened RoundCollectors
  import opened Client
  import opened Records
  import opened RoomInvariants
  import opened RoomSteps
  import opened Cascades
  import opened RoomPlay
  import opened RoomClock
  import opened Steps
  import opened Runs
  import P = Phases

  // ----- every reachable world -----

  /** A run begins with nobody in an idle room, at the default settings: one round, no generated
      fakes, and 60, 90 and 20 seconds to draw, to write a fake and to vote. */
  lemma RunsBeginEmpty(run: seq<World>, script: seq<Entry>)
    requires IsRun(run, script)
    ensures var s := run[0].s;
            && s.players == map[] && s.leaderID == "" && s.status == Idle && !s.paused && !s.pencilsDown && !s.postGame
            && s.settings == P.Settings(1, 0, 60, 90, 20) && run[0].sent == []
  {
    assert run[0] == NewWorld(run[0].dict);
  }

  /** The invariant holds in every world that a new room can reach by any messages. */
  lemma {:induction false} AlwaysGood(run: seq<World>, script: seq<Entry>, i: nat)
    requires IsRun(run, script) && i < |run|
    ensures Good(run[i])
    decreases i
  {
    if i == 0 {
      NewWorldIsGood(run[0].dict);
    } else {
      AlwaysGood(run, script, i - 1);
      OneStep(run, script, i - 1, i);
    }
  }

  lemma OneStep(run: seq<World>, script: seq<Entry>, i: nat, next: nat)
    requires IsRun(run, script) && i + 1 == next < |run|
    ensures Good(run[i]) ==> Good(run[next]) && Next(run[i], script[i], run[next])
  {
    assert StepAt(run, script, i);
    if Good(run[i]) {
      HandledIsNext(run[i], script[i], run[next]);
    }
  }

  lemma StepMoves(run: seq<World>, script: seq<Entry>, i: nat, next: nat)
    requires IsRun(run, script) && i + 1 == next < |run|
    ensures Next(run[i], script[i], run[next])
  {
    AlwaysGood(run, script, i);
    OneStep(run, script, i, next);
  }

  /** The ledger: at all times a player's score is the sum of their deltas over the scoring
      results on record, never negative, and it is what every client shows. */
  lemma ScoreLedger(run: seq<World>, script: seq<Entry>, i: nat, p: PlayerID)
    requires IsRun(run, script) && i < |run|
    ensures var w := run[i];
            At(w.s.scores, p) == Ledger(w.s.phaseData, w.s.phaseIdx, p) >= 0 && ViewOf(w).scores == w.s.scores
  {
    AlwaysGood(run, script, i);
  }

  /** The primitive for a phase of kind `k`. */
  predicate IsFor(c: Contents, k: P.Kind) {
    match k
    case DrawingSubmit => c.GotDrawings?
    case FakePromptSubmit => c.GotFakes?
    case Voting => c.GotVotes?
    case Leaderboard => c.Holding?
    case _ => c.Computing?
  }

  /** The record: its keys are exactly the names of the phases before the current one, each
      result is of its phase's kind and fits those it was computed from; a game is in one of
      its phases, in the round the phase belongs to, and rests where somebody has to act. There
      is a primitive exactly during a game, and it is the one for the phase. */
  lemma PhasePrefix(run: seq<World>, script: seq<Entry>, i: nat)
    requires IsRun(run, script) && i < |run|
    ensures var s := run[i].s;
            && s.phaseData.Keys == KeysUpTo(s.phaseIdx)
            && (forall k :: 0 <= k < s.phaseIdx ==>
                              KeyAt(k) in s.phaseData && Fits(s.phaseData, k, s.phaseData[KeyAt(k)], run[i].issued))
            && (s.status == InGame ==>
                  && s.phaseIdx < |s.phases| && Rests(P.KindAt(s.phaseIdx))
                  && s.round == s.phaseIdx / P.PHASES_PER_ROUND + 1
                  && s.phases[s.phaseIdx].name == Print(KeyAt(s.phaseIdx)) == ViewOf(run[i]).phase)
            && (run[i].contents.Nothing? <==> s.status == Idle)
            && (s.status == InGame ==> IsFor(run[i].contents, P.KindAt(s.phaseIdx)))
  {
    AlwaysGood(run, script, i);
    var s := run[i].s;
    if s.status == InGame {
      P.PlanFacts(s.phases, s.settings, s.phaseIdx);
    }
  }

  /** In particular every finished round is on record in full, and what `Rounds` says applies. */
  lemma FinishedRoundsAreStored(run: seq<World>, script: seq<Entry>, i: nat, n: nat)
    requires IsRun(run, script) && i < |run| && n <= run[i].s.phaseIdx
    ensures StoredUpTo(run[i].s.phaseData, n, run[i].issued)
  {
    AlwaysGood(run, script, i);
  }

  /** Every result that the current phase, or an earlier one, depends on is on record. */
  lemma DependenciesAreStored(run: seq<World>, script: seq<Entry>, i: nat, k: nat, m: nat)
    requires IsRun(run, script) && i < |run| && run[i].s.status == InGame
    requires k <= run[i].s.phaseIdx && m < |P.DependsOn(P.KindAt(k))|
    ensures run[i].s.phases != [] && k < |run[i].s.phases|
    ensures var key := Key(P.DependsOn(P.KindAt(k))[m], P.RoundAt(k));
            key in run[i].s.phaseData && |run[i].s.phases[k].dependsOn| > m && run[i].s.phases[k].dependsOn[m] == Print(key)
  {
    AlwaysGood(run, script, i);
    P.SlotOfPlan(run[i].s.phases, run[i].s.settings, k);
    var j := DependencyKey(k, m);
    assert KeyAt(j) in KeysUpTo(run[i].s.phaseIdx);
  }

  lemma DependencyKey(k: nat, m: nat) returns (j: nat)
    requires m < |P.DependsOn(P.KindAt(k))|
    ensures j < k && KeyAt(j) == Key(P.DependsOn(P.KindAt(k))[m], P.RoundAt(k))
  {
    P.DependencyIsEarlier(k, m);
    j := k - k % P.PHASES_PER_ROUND + P.Offset(P.DependsOn(P.KindAt(k))[m]);
  }

  /** The lobby holds nothing of any game; after a game everything is done and nobody ready;
      a socket is open exactly for the connected. */
  lemma LobbyIsClean(run: seq<World>, script: seq<Entry>, i: nat, p: PlayerID)
    requires IsRun(run, script) && i < |run|
    ensures var s := run[i].s;
            && (Connected(s.players, p) <==> p in s.conns)
            && (s.status == Idle && !s.postGame ==> s.phases == [] && s.phaseData == map[] && s.scores == map[])
            && (s.postGame ==> s.status == Idle && s.phaseIdx == |s.phases| && !CanStart(s.players))
            && (s.leaderID != NOBODY ==> s.leaderID in s.joinOrder && s.leaderID in s.conns)
  {
    AlwaysGood(run, script, i);
    var w := run[i];
    if w.s.postGame && CanStart(w.s.players) {
      StartNeedsCleanLobby(w);
    }
  }

  /** The players once somebody has readied up or left. */
  function SeatsAfter(players: Players, m: Message): Players
    requires (m.Ready? || m.Leave?) && m.pid in players
  {
    players[m.pid := if m.Ready? then players[m.pid].(ready := m.ready) else players[m.pid].(connected := false)]
  }

  /** A game starts when, and only when, somebody in the lobby readies up or leaves and that
      makes at least three players here, all ready. It starts out of the lobby that this very
      message leaves, which holds nothing of any earlier game, with everyone at zero and
      drawing, and has as many rounds as configured. In the lull after a game nobody's leaving
      starts one. */
  lemma GamesStartFromScratch(run: seq<World>, script: seq<Entry>, i: nat, p: PlayerID)
    requires IsRun(run, script) && i < |script| && run[i].s.status == Idle
    ensures run[i + 1].s.status == InGame <==>
            && (script[i].msg.Ready? || script[i].msg.Leave?) && script[i].msg.pid in run[i].s.players
            && var seats := SeatsAfter(run[i].s.players, script[i].msg);
               && |set q | q in seats && seats[q].connected| >= 3
               && forall q :: q in seats && seats[q].connected ==> seats[q].ready
    ensures run[i].s.postGame && script[i].msg.Leave? ==> run[i + 1].s.status == Idle
    ensures run[i + 1].s.status == InGame ==>
              && StartsGame(run[i], script[i])
              && var lobby, t := LobbyAfter(run[i], script[i]), run[i + 1];
                 && CleanLobby(lobby) && Begun(lobby, t, script[i].now)
                 && t.s.phaseIdx == 1 && P.KindAt(1) == P.DrawingSubmit && |t.s.phases| == 7 * t.s.settings.roundCount
                 && At(t.s.scores, p) == 0
  {
    StepMoves(run, script, i, i + 1);
    StartsByCounting(run[i], script[i]);
    if run[i + 1].s.status == InGame {
      assert StepAt(run, script, i);
      StartIsBegun(run[i], script[i], run[i + 1]);
      NobodyScoredYet(run, script, i + 1, p);
    }
  }

  lemma NobodyScoredYet(run: seq<World>, script: seq<Entry>, i: nat, p: PlayerID)
    requires IsRun(run, script) && i < |run| && run[i].s.phaseIdx == 1
    ensures At(run[i].s.scores, p) == 0
  {
    AlwaysGood(run, script, i);
    NoPointsYet(run[i], p);
  }

  lemma StartsByCounting(w: World, e: Entry)
    ensures StartsGame(w, e) <==>
            && (e.msg.Ready? || e.msg.Leave?) && e.msg.pid in w.s.players
            && var seats := SeatsAfter(w.s.players, e.msg);
               && |set q | q in seats && seats[q].connected| >= 3
               && forall q :: q in seats && seats[q].connected ==> seats[q].ready
  {
    if (e.msg.Ready? || e.msg.Leave?) && e.msg.pid in w.s.players {
      var seats, players := SeatsAfter(w.s.players, e.msg), LobbyAfter(w, e).s.players;
      assert (set q | q in seats && seats[q].connected) == ConnectedSet(players);
      assert forall q :: Connected(players, q) <==> q in seats && seats[q].connected;
    }
  }

  lemma NoPointsYet(w: World, p: PlayerID)
    requires Good(w) && w.s.phaseIdx == 1
    ensures At(w.s.scores, p) == 0
  {
    var data := w.s.phaseData;
    assert Ledger(data, 1, p) == Ledger(data, 0, p) + DeltaAt(data, 0, p);
  }

  // ----- one game -----

  /** Between messages `i` and `j` a game goes on, and is not given up. */
  ghost predicate OneGame(run: seq<World>, script: seq<Entry>, i: nat, j: nat)
    requires i <= j < |run| == |script| + 1
  {
    forall k :: i <= k < j ==> run[k].s.status == InGame && !Resets(run[k].s, script[k])
  }

  lemma StepInGame(run: seq<World>, script: seq<Entry>, k: nat, next: nat)
    requires IsRun(run, script) && k + 1 == next < |run| && run[k].s.status == InGame && !Resets(run[k].s, script[k])
    ensures GameMoves(run[k].s, script[k], run[next].s)
  {
    StepMoves(run, script, k, next);
  }

  /** Over a game no result but a prompt changes, no phase is undone, nobody loses points, and
      there is never more left to do. */
  lemma {:induction false} GameOnlyGrows(run: seq<World>, script: seq<Entry>, i: nat, j: nat)
    requires IsRun(run, script) && i <= j < |run| && run[i].s.status == InGame && OneGame(run, script, i, j)
    ensures Continues(run[i].s, run[j].s)
    decreases j
  {
    if i < j {
      GameOnlyGrows(run, script, i, j - 1);
      assert run[j - 1].s.status == InGame && !Resets(run[j - 1].s, script[j - 1]);
      StepInGame(run, script, j - 1, j);
      ContinuesTransitive(run[i].s, run[j - 1].s, run[j].s);
    }
  }

  /** Every timeout and every accepted click leaves strictly less to do, for good. */
  lemma PushesMakeProgress(run: seq<World>, script: seq<Entry>, i: nat, k: nat, j: nat)
    requires IsRun(run, script) && i <= k < j < |run| && OneGame(run, script, i, j)
    requires Pushes(run[k].s, script[k])
    ensures Less(MeasureOf(run[j].s), MeasureOf(run[i].s))
  {
    GameOnlyGrows(run, script, i, k);
    StepInGame(run, script, k, k + 1);
    if k + 1 < j {
      GameOnlyGrows(run, script, k + 1, j);
    }
  }

  ghost function Timeouts(run: seq<World>, script: seq<Entry>, i: nat, j: nat): nat
    requires i <= j < |run| == |script| + 1
  {
    if i == j then 0
    else Timeouts(run, script, i, j - 1) +
         if script[j - 1].msg.TimerFires? && Due(run[j - 1].s, script[j - 1].now) then 1 else 0
  }

  /** A game sees at most as many timeouts as it has phases left. */
  lemma {:induction false} TimeoutsAreBounded(run: seq<World>, script: seq<Entry>, i: nat, j: nat)
    requires IsRun(run, script) && i <= j < |run| && run[i].s.status == InGame && OneGame(run, script, i, j)
    ensures run[i].s.phaseIdx + Timeouts(run, script, i, j) <= run[j].s.phaseIdx <= |run[i].s.phases|
    decreases j
  {
    StaysInPlan(run, script, i, j);
    if i < j {
      TimeoutsAreBounded(run, script, i, j - 1);
      StepInGame(run, script, j - 1, j);
      TimeoutAdvances(run[j - 1].s, script[j - 1], run[j].s);
    }
  }

  lemma TimeoutAdvances(a: State, e: Entry, b: State)
    requires GameMoves(a, e, b)
    ensures a.phaseIdx <= b.phaseIdx
    ensures e.msg.TimerFires? && Due(a, e.now) ==> a.phaseIdx + 1 <= b.phaseIdx
  {
  }

  lemma OnlyForward(run: seq<World>, script: seq<Entry>, i: nat, j: nat)
    requires IsRun(run, script) && i <= j < |run| && run[i].s.status == InGame && OneGame(run, script, i, j)
    ensures run[j].s.phases == run[i].s.phases && run[i].s.phaseIdx <= run[j].s.phaseIdx
  {
    GameOnlyGrows(run, script, i, j);
  }

  lemma StaysInPlan(run: seq<World>, script: seq<Entry>, i: nat, j: nat)
    requires IsRun(run, script) && i <= j < |run| && run[i].s.status == InGame && OneGame(run, script, i, j)
    ensures run[j].s.phases == run[i].s.phases && run[i].s.phaseIdx <= run[j].s.phaseIdx <= |run[i].s.phases|
  {
    OnlyForward(run, script, i, j);
    AlwaysGood(run, script, j);
  }

  // ----- the leaderboard -----

  ghost function ClickCount(run: seq<World>, script: seq<Entry>, i: nat, j: nat): nat
    requires i <= j < |run| == |script| + 1
  {
    if i == j then 0
    else ClickCount(run, script, i, j - 1) + if Clicks(run[j - 1].s, script[j - 1]) then 1 else 0
  }

  function QueueOf(s: State): seq<Step> {
    match s.stepState
    case None => []
    case Some(st) => st.queue
  }

  /** While the room stays on one leaderboard, the cursor counts the accepted clicks, and
      nothing else happens to the queue or the record. */
  lemma {:induction false} CursorCountsClicks(run: seq<World>, script: seq<Entry>, i: nat, j: nat)
    requires IsRun(run, script) && i <= j < |run| && OneGame(run, script, i, j)
    requires OnLeaderboard(run[i].s) && OnLeaderboard(run[j].s) && run[j].s.phaseIdx == run[i].s.phaseIdx
    ensures Cursor(run[j].s) == Cursor(run[i].s) + ClickCount(run, script, i, j)
    ensures QueueOf(run[j].s) == QueueOf(run[i].s) && run[j].s.phaseData == run[i].s.phaseData
    decreases j
  {
    if i < j {
      StaysOnBoard(run, script, i, j);
      CursorCountsClicks(run, script, i, j - 1);
      StepInGame(run, script, j - 1, j);
      OneStepOnBoard(run[j - 1].s, script[j - 1], run[j].s);
    }
  }

  lemma OneStepOnBoard(a: State, e: Entry, b: State)
    requires OnLeaderboard(a) && GameMoves(a, e, b) && b.phaseIdx == a.phaseIdx
    ensures Cursor(b) == Cursor(a) + if Clicks(a, e) then 1 else 0
    ensures QueueOf(b) == QueueOf(a) && b.phaseData == a.phaseData
  {
  }

  lemma StaysOnBoard(run: seq<World>, script: seq<Entry>, i: nat, j: nat)
    requires IsRun(run, script) && i < j < |run| && OneGame(run, script, i, j)
    requires OnLeaderboard(run[i].s) && OnLeaderboard(run[j].s) && run[j].s.phaseIdx == run[i].s.phaseIdx
    ensures OnLeaderboard(run[j - 1].s) && run[j - 1].s.phaseIdx == run[i].s.phaseIdx
  {
    OnlyForward(run, script, i, j - 1);
    OnlyForward(run, script, j - 1, j);
  }

  /** Leaving a leaderboard takes one accepted click for every step of its queue, and one more. */
  lemma LeavingTakesOneMore(run: seq<World>, script: seq<Entry>, i: nat, j: nat)
    requires IsRun(run, script) && i < j < |run| && OneGame(run, script, i, j)
    requires OnLeaderboard(run[i].s) && Cursor(run[i].s) == 0
    requires OnLeaderboard(run[j - 1].s) && run[j - 1].s.phaseIdx == run[i].s.phaseIdx
    requires run[j].s.phaseIdx != run[i].s.phaseIdx
    ensures ClickCount(run, script, i, j) == |QueueOf(run[i].s)| + 1
  {
    CursorCountsClicks(run, script, i, j - 1);
    StepInGame(run, script, j - 1, j);
    CursorInQueue(run, script, j - 1);
    LeavesWhenShown(run[j - 1].s, script[j - 1], run[j].s);
  }

  lemma LeavesWhenShown(a: State, e: Entry, b: State)
    requires OnLeaderboard(a) && GameMoves(a, e, b) && b.phaseIdx != a.phaseIdx && Cursor(a) <= |QueueOf(a)|
    ensures Clicks(a, e) && Cursor(a) == |QueueOf(a)|
  {
  }

  lemma CursorInQueue(run: seq<World>, script: seq<Entry>, i: nat)
    requires IsRun(run, script) && i < |run| && OnLeaderboard(run[i].s)
    ensures Cursor(run[i].s) <= |QueueOf(run[i].s)|
  {
    AlwaysGood(run, script, i);
  }

  /** A leaderboard is always entered with nothing shown. */
  lemma ArrivesBlank(run: seq<World>, script: seq<Entry>, i: nat)
    requires IsRun(run, script) && i < |script| && run[i].s.status == InGame && !Resets(run[i].s, script[i])
    requires OnLeaderboard(run[i + 1].s) && run[i + 1].s.phaseIdx != run[i].s.phaseIdx
    ensures Cursor(run[i + 1].s) == 0
  {
    StepMoves(run, script, i, i + 1);
  }

  /** Every client that got all frames holds, after any number of accepted clicks, exactly the
      steps clicked through, and its button knows whether the next click leaves. */
  lemma ClientsFollow(run: seq<World>, script: seq<Entry>, i: nat, j: nat)
    requires IsRun(run, script) && i <= j < |run| && OneGame(run, script, i, j)
    requires OnLeaderboard(run[i].s) && Cursor(run[i].s) == 0
    requires OnLeaderboard(run[j].s) && run[j].s.phaseIdx == run[i].s.phaseIdx
    ensures var n, q, v := ClickCount(run, script, i, j), QueueOf(run[i].s), ViewOf(run[j]);
            && n <= |q| && HasReplayed(v, q[..n])
            && (RevealsIn(run[i].s.phaseData, run[i].s.round) != map[] ==> (AllRevealed(v) <==> n == |q|))
  {
    CursorCountsClicks(run, script, i, j);
    RoundOfPhase(run, script, i);
    RoundOfPhase(run, script, j);
    AlwaysGood(run, script, j);
    FollowsCursor(run[j], ClickCount(run, script, i, j), QueueOf(run[i].s));
  }

  /** A click that shows a step sends just that step, and turns every screen to its drawing. */
  lemma ClickTurnsScreens(run: seq<World>, script: seq<Entry>, i: nat)
    requires IsRun(run, script) && i < |script| && run[i + 1] != run[i]
    requires script[i].msg.AdvanceReveal? && OnLeaderboard(run[i].s) && Cursor(run[i].s) < |QueueOf(run[i].s)|
    ensures var step := QueueOf(run[i].s)[Cursor(run[i].s)];
            && run[i + 1].sent == run[i].sent + [RevealStep(step)]
            && (step.drawing != "" ==> ViewOf(run[i + 1]).current == Some(step.drawing))
  {
    assert StepAt(run, script, i);
    StepTurnsScreens(run[i], script[i], run[i + 1]);
  }

  lemma StepTurnsScreens(w: World, e: Entry, t: World)
    requires Handled(w, e, t) && t != w && e.msg.AdvanceReveal? && Cursor(w.s) < |QueueOf(w.s)|
    ensures var step := QueueOf(w.s)[Cursor(w.s)];
            && t.sent == w.sent + [RevealStep(step)]
            && (step.drawing != "" ==> ViewOf(t).current == Some(step.drawing))
  {
    ReduceMore(INITIAL, w.sent, RevealStep(QueueOf(w.s)[Cursor(w.s)]));
  }

  lemma RoundOfPhase(run: seq<World>, script: seq<Entry>, i: nat)
    requires IsRun(run, script) && i < |run| && run[i].s.status == InGame
    ensures run[i].s.round == P.RoundAt(run[i].s.phaseIdx)
  {
    AlwaysGood(run, script, i);
  }

  lemma FollowsCursor(w: World, n: nat, q: seq<Step>)
    requires Resting(w) && OnLeaderboard(w.s) && n == Cursor(w.s) && q == QueueOf(w.s)
    ensures n <= |q| && HasReplayed(ViewOf(w), q[..n])
    ensures RevealsIn(w.s.phaseData, w.s.round) != map[] ==> (AllRevealed(ViewOf(w)) <==> n == |q|)
  {
    if RevealsIn(w.s.phaseData, w.s.round) != map[] {
      ButtonTellsTheNextClick(w);
    } else {
      assert ShownSteps(w.s.stepState) == [];
    }
  }

  // ----- pausing -----

  /** A frozen game stays exactly as it is through any messages but a resume by the leader and
      the reset of an abandoned room. */
  lemma {:induction false} FrozenStaysFrozen(run: seq<World>, script: seq<Entry>, i: nat, j: nat)
    requires IsRun(run, script) && i <= j < |run| && Frozen(run[i].s)
    requires forall k :: i <= k < j ==> !Resumes(run[k].s, script[k]) && !Resets(run[k].s, script[k])
    ensures StillFrozen(run[i].s, run[j].s)
    decreases j
  {
    if i < j {
      FrozenStaysFrozen(run, script, i, j - 1);
      StepInGame(run, script, j - 1, j);
    }
  }

  /** A pause taken in the lobby does not hold: the game begins paused, but with its timer
      running. It is the one way for a game to begin paused. */
  lemma LobbyPauseLeaks(run: seq<World>, script: seq<Entry>, i: nat)
    requires IsRun(run, script) && i < |script| && run[i].s.status == Idle && run[i + 1].s.status == InGame
    ensures var t := run[i + 1].s;
            && t.paused == run[i].s.paused && !Frozen(t)
            && t.phaseIdx < |t.phases| && t.phaseTimer == Some(script[i].now + t.phases[t.phaseIdx].duration)
  {
    StepStarts(run, script, i, i + 1);
    TimedWhileDrawing(run, script, i + 1);
    StartsWithTimer(run[i], script[i], run[i + 1]);
  }

  lemma StartsWithTimer(w: World, e: Entry, t: World)
    requires LobbyStarts(w, e, t) && t.s.status == InGame && Timed(t)
    ensures t.s.paused == w.s.paused && !Frozen(t.s)
    ensures t.s.phaseIdx < |t.s.phases| && t.s.phaseTimer == Some(e.now + t.s.phases[t.s.phaseIdx].duration)
  {
    FreshTimer(t.watch, t.s, e.now);
  }

  ghost predicate Timed(w: World) {
    w.s.phaseIdx < |w.s.phases| && w.s.phases[w.s.phaseIdx].duration > 0 && ClockOk(w.watch, w.s)
  }

  lemma TimedWhileDrawing(run: seq<World>, script: seq<Entry>, i: nat)
    requires IsRun(run, script) && i < |run|
    requires run[i].s.status == InGame && P.KindAt(run[i].s.phaseIdx) == P.DrawingSubmit
    ensures Timed(run[i])
  {
    AlwaysGood(run, script, i);
    P.PlanFacts(run[i].s.phases, run[i].s.settings, run[i].s.phaseIdx);
  }

  lemma FreshTimer(watch: Watch, s: State, now: int)
    requires s.status == InGame && s.phaseIdx < |s.phases| && s.phases[s.phaseIdx].duration > 0
    requires ClockOk(watch, s) && JustBegun(watch, s, now)
    ensures !Frozen(s) && s.phaseTimer == Some(now + s.phases[s.phaseIdx].duration)
  {
  }

  /** A timer that is due moves the game on whether or not the room is paused. */
  lemma TimeoutIgnoresPause(run: seq<World>, script: seq<Entry>, i: nat)
    requires IsRun(run, script) && i < |script| && run[i].s.status == InGame
    requires script[i].msg == TimerFires && Due(run[i].s, script[i].now)
    ensures run[i + 1].s.phaseIdx > run[i].s.phaseIdx
  {
    StepMoves(run, script, i, i + 1);
  }

  // ----- the phase clock -----

  /** When world `k` of the run came about. */
  function TimeOf(script: seq<Entry>, k: nat): int
    requires 0 < k <= |script|
  {
    script[k - 1].now
  }

  /** The time that passed between worlds `i` and `j` while the room was not paused. */
  ghost function Unpaused(run: seq<World>, script: seq<Entry>, i: nat, j: nat): int
    requires 0 < i <= j < |run| == |script| + 1
  {
    if i == j then 0
    else Unpaused(run, script, i, j - 1) +
         if run[j - 1].s.paused then 0 else TimeOf(script, j) - TimeOf(script, j - 1)
  }

  /** The time spent by `now`, whether the clock runs or stands. */
  function Spent(w: World, now: int): int {
    if w.s.paused then w.watch.spent else SpentBy(w.watch, now)
  }

  /** What is left of the phase's time, whether the clock runs or stands. */
  function Remaining(s: State, now: int): int {
    if s.paused then s.pauseRemaining
    else match s.phaseTimer
         case Some(deadline) => deadline - now
         case None => 0
  }

  /** Worlds `i` to `j` are in one phase. */
  ghost predicate OnePhase(run: seq<World>, script: seq<Entry>, i: nat, j: nat)
    requires i <= j < |run| == |script| + 1
  {
    && OneGame(run, script, i, j)
    && forall k :: i <= k <= j ==> run[k].s.status == InGame && run[k].s.phaseIdx == run[i].s.phaseIdx
  }

  /** World `i` is the first of a phase. */
  ghost predicate PhaseBegins(run: seq<World>, i: nat)
    requires 0 < i < |run|
  {
    run[i].s.status == InGame && (run[i - 1].s.status == Idle || run[i].s.phaseIdx != run[i - 1].s.phaseIdx)
  }

  lemma StepIsPlay(run: seq<World>, script: seq<Entry>, k: nat, next: nat)
    requires IsRun(run, script) && k + 1 == next < |run| && run[k].s.status == InGame && run[next].s.status == InGame
    ensures Plays(run[k], script[k], run[next])
  {
    StepMoves(run, script, k, next);
  }

  lemma StepStarts(run: seq<World>, script: seq<Entry>, k: nat, next: nat)
    requires IsRun(run, script) && k + 1 == next < |run| && run[k].s.status == Idle && run[next].s.status == InGame
    ensures LobbyStarts(run[k], script[k], run[next])
  {
    StepMoves(run, script, k, next);
  }

  lemma BeginsFresh(run: seq<World>, script: seq<Entry>, i: nat)
    requires IsRun(run, script) && 0 < i < |run| && PhaseBegins(run, i)
    ensures JustBegun(run[i].watch, run[i].s, TimeOf(script, i))
  {
    if run[i - 1].s.status == Idle {
      StepStarts(run, script, i - 1, i);
      StartsFresh(run[i - 1], script[i - 1], run[i]);
    } else {
      StepIsPlay(run, script, i - 1, i);
      EntersFresh(run[i - 1], script[i - 1], run[i]);
    }
  }

  lemma EntersFresh(w: World, e: Entry, t: World)
    requires ClockMoves(w, e, t) && t.s.status == InGame && t.s.phaseIdx != w.s.phaseIdx
    ensures JustBegun(t.watch, t.s, e.now)
  {
  }

  lemma StartsFresh(w: World, e: Entry, t: World)
    requires LobbyStarts(w, e, t) && t.s.status == InGame
    ensures JustBegun(t.watch, t.s, e.now)
  {
  }

  lemma ClockIsOk(run: seq<World>, script: seq<Entry>, k: nat)
    requires IsRun(run, script) && k < |run| && run[k].s.status == InGame
    ensures run[k].s.phaseIdx < |run[k].s.phases| && ClockOk(run[k].watch, run[k].s)
  {
    AlwaysGood(run, script, k);
  }

  /** A phase that begins has the time its setting allows, counted from now: the second, third and
      fourth of a round; the leaderboard, the seventh, has no timer. */
  lemma PhaseHasItsTime(run: seq<World>, script: seq<Entry>, i: nat)
    requires IsRun(run, script) && 0 < i < |run| && PhaseBegins(run, i)
    ensures var s, now := run[i].s, TimeOf(script, i);
            && s.phaseIdx % 7 in {1, 2, 3, 6}
            && (s.phaseIdx % 7 == 1 ==> s.phaseTimer == Some(now + s.settings.drawingSeconds))
            && (s.phaseIdx % 7 == 2 ==> s.phaseTimer == Some(now + s.settings.fakePromptSeconds))
            && (s.phaseIdx % 7 == 3 ==> s.phaseTimer == Some(now + s.settings.votingSeconds))
            && (s.phaseIdx % 7 == 6 ==> s.phaseTimer == None)
  {
    BeginsFresh(run, script, i);
    AlwaysGood(run, script, i);
    TimedBySettings(run[i]);
    TimerAtStart(run[i].watch, run[i].s, TimeOf(script, i));
  }

  lemma TimedBySettings(w: World)
    requires Resting(w)
    ensures w.s.phaseIdx % 7 in {1, 2, 3, 6} && w.s.phaseIdx < |w.s.phases| && ClockOk(w.watch, w.s)
    ensures w.s.settings.drawingSeconds > 0 && w.s.settings.fakePromptSeconds > 0 && w.s.settings.votingSeconds > 0
    ensures w.s.phases[w.s.phaseIdx].duration ==
            if w.s.phaseIdx % 7 == 1 then w.s.settings.drawingSeconds
            else if w.s.phaseIdx % 7 == 2 then w.s.settings.fakePromptSeconds
            else if w.s.phaseIdx % 7 == 3 then w.s.settings.votingSeconds
            else 0
  {
    P.PlanIsTimed(w.s.phases, w.s.settings);
    assert P.Slot(w.s.phases, w.s.phaseIdx) == w.s.phases[w.s.phaseIdx];
  }

  lemma TimerAtStart(watch: Watch, s: State, now: int)
    requires s.phaseIdx < |s.phases| && ClockOk(watch, s) && JustBegun(watch, s, now)
    ensures var limit := s.phases[s.phaseIdx].duration;
            s.phaseTimer == if limit > 0 then Some(now + limit) else None
  {
  }

  lemma SamePhaseStep(run: seq<World>, script: seq<Entry>, i: nat, j: nat)
    requires IsRun(run, script) && 0 < i < j < |run| && OnePhase(run, script, i, j)
    ensures OnePhase(run, script, i, j - 1) && run[j].s.phaseIdx == run[j - 1].s.phaseIdx
    ensures run[j].s.phases == run[j - 1].s.phases
    ensures run[j].s.status == InGame && ClockMoves(run[j - 1], script[j - 1], run[j])
  {
    assert run[j - 1].s.status == InGame && !Resets(run[j - 1].s, script[j - 1]);
    StepMoves(run, script, j - 1, j);
  }

  /** The time limit of the phase that world `k` is in. */
  ghost function Limit(run: seq<World>, k: nat): nat
    requires k < |run|
  {
    if run[k].s.phaseIdx < |run[k].s.phases| then run[k].s.phases[run[k].s.phaseIdx].duration else 0
  }

  ghost predicate NoSwitch(run: seq<World>, script: seq<Entry>, i: nat, j: nat)
    requires i <= j < |run| == |script| + 1
  {
    forall k :: i <= k < j ==> !Switches(run[k].s, script[k])
  }

  /** When a paused game is not frozen: in a timed phase, exactly if the phase began paused and
      the leader has not resumed the game since. */
  lemma PausedWithTimerIff(run: seq<World>, script: seq<Entry>, i: nat, j: nat)
    requires IsRun(run, script) && 0 < i <= j < |run| && PhaseBegins(run, i) && OnePhase(run, script, i, j)
    requires Limit(run, i) > 0
    ensures run[j].s.paused && run[j].s.phaseTimer.Some? <==> run[i].s.paused && NoSwitch(run, script, i, j)
  {
    LeaksIff(run, script, i, j);
    ClockIsOk(run, script, j);
  }

  lemma {:induction false} LeaksIff(run: seq<World>, script: seq<Entry>, i: nat, j: nat)
    requires IsRun(run, script) && 0 < i <= j < |run| && PhaseBegins(run, i) && OnePhase(run, script, i, j)
    requires Limit(run, i) > 0
    ensures run[j].watch.clock == Leaked && run[j].s.paused <==> run[i].s.paused && NoSwitch(run, script, i, j)
    decreases j
  {
    if i == j {
      BeginsFresh(run, script, i);
    } else {
      SamePhaseStep(run, script, i, j);
      LeaksIff(run, script, i, j - 1);
    }
  }

  ghost predicate InTime(s: State, e: Entry) {
    Switches(s, e) && e.msg.pause ==> s.phaseTimer.Some? && e.now < s.phaseTimer.value
  }

  /** Every pause between worlds `i` and `j` was taken with time left. */
  ghost predicate PausesInTime(run: seq<World>, script: seq<Entry>, i: nat, j: nat)
    requires i <= j < |run| == |script| + 1
  {
    forall k :: i <= k < j ==> InTime(run[k].s, script[k])
  }

  lemma {:induction false} RegularIff(run: seq<World>, script: seq<Entry>, i: nat, j: nat)
    requires IsRun(run, script) && 0 < i <= j < |run| && PhaseBegins(run, i) && OnePhase(run, script, i, j)
    requires Limit(run, i) > 0 && !run[i].s.paused
    ensures run[j].watch.clock == if PausesInTime(run, script, i, j) then Regular else Dead
    decreases j
  {
    if i == j {
      BeginsFresh(run, script, i);
    } else {
      SamePhaseStep(run, script, i, j);
      RegularIff(run, script, i, j - 1);
      ClockIsOk(run, script, j - 1);
      RegularStep(run[j - 1], script[j - 1], run[j]);
      assert PausesInTime(run, script, i, j) == (PausesInTime(run, script, i, j - 1) && InTime(run[j - 1].s, script[j - 1]));
    }
  }

  /** A clock stays regular through a step of its phase unless that is a pause taken too late;
      a dead one stays dead. */
  lemma RegularStep(w: World, e: Entry, t: World)
    requires w.s.phaseIdx < |w.s.phases| && ClockOk(w.watch, w.s) && ClockMoves(w, e, t)
    requires t.s.status == InGame && t.s.phaseIdx == w.s.phaseIdx && w.watch.clock != Leaked
    ensures t.watch.clock == if w.watch.clock == Regular && InTime(w.s, e) then Regular else Dead
  {
  }

  /** As long as every pause was taken with time left, what the account says was spent is the
      unpaused time that has passed since the phase began. */
  lemma {:induction false} AccountIsUnpausedTime(run: seq<World>, script: seq<Entry>, i: nat, j: nat)
    requires IsRun(run, script) && 0 < i <= j < |run| && PhaseBegins(run, i) && OnePhase(run, script, i, j)
    requires Limit(run, i) > 0 && !run[i].s.paused && PausesInTime(run, script, i, j)
    ensures Spent(run[j], TimeOf(script, j)) == Unpaused(run, script, i, j)
    decreases j
  {
    if i == j {
      BeginsFresh(run, script, i);
    } else {
      SamePhaseStep(run, script, i, j);
      RegularIff(run, script, i, j - 1);
      RegularIff(run, script, i, j);
      ClockIsOk(run, script, j - 1);
      AccountIsUnpausedTime(run, script, i, j - 1);
      ClockStep(run[j - 1], script[j - 1], run[j]);
    }
  }

  /** A step within a phase: the account moves on by the time passed, if the room was not paused. */
  lemma ClockStep(w: World, e: Entry, t: World)
    requires w.s.phaseIdx < |w.s.phases| && ClockOk(w.watch, w.s) && ClockMoves(w, e, t)
    requires t.s.status == InGame && t.s.phaseIdx == w.s.phaseIdx && w.watch.clock == t.watch.clock == Regular
    ensures forall before :: Spent(t, e.now) == Spent(w, before) + if w.s.paused then 0 else e.now - before
  {
  }

  /** Time is conserved in a timed phase that began unpaused exactly if every pause was taken
      with time left: then, over any sequence of pauses and resumes, the unpaused time passed
      so far and the time remaining add up to the phase's duration. After a pause taken too
      late there is neither a timer nor any time put by for the rest of the phase. */
  lemma TimeIsConserved(run: seq<World>, script: seq<Entry>, i: nat, j: nat)
    requires IsRun(run, script) && 0 < i <= j < |run| && PhaseBegins(run, i) && OnePhase(run, script, i, j)
    requires Limit(run, i) > 0 && !run[i].s.paused
    ensures if PausesInTime(run, script, i, j) then
              && (run[j].s.paused <==> run[j].s.phaseTimer.None?)
              && Unpaused(run, script, i, j) + Remaining(run[j].s, TimeOf(script, j)) == Limit(run, j)
            else run[j].s.phaseTimer.None? && run[j].s.pauseRemaining == 0
  {
    RegularIff(run, script, i, j);
    ClockIsOk(run, script, j);
    if PausesInTime(run, script, i, j) {
      AccountIsUnpausedTime(run, script, i, j);
    }
  }

  // ----- the leader -----

  /** A leader leads until they leave, or the abandoned room is reset. */
  lemma {:induction false} LeaderStays(run: seq<World>, script: seq<Entry>, i: nat, j: nat)
    requires IsRun(run, script) && i <= j < |run| && run[i].s.leaderID != NOBODY
    requires forall k :: i <= k < j ==> script[k].msg != Leave(run[i].s.leaderID) && !Resets(run[k].s, script[k])
    ensures run[j].s.leaderID == run[i].s.leaderID
    decreases j
  {
    if i < j {
      LeaderStays(run, script, i, j - 1);
      LeaderStep(run, script, j - 1, j);
    }
  }

  lemma LeaderStep(run: seq<World>, script: seq<Entry>, k: nat, next: nat)
    requires IsRun(run, script) && k + 1 == next < |run|
    ensures if Resets(run[k].s, script[k]) then LedIfPossible(run[next].s)
            else LeaderMoves(run[k].s, script[k], run[next].s)
  {
    StepMoves(run, script, k, next);
  }

  /** As long as nobody reconnects, joiners who are here have a leader. */
  lemma {:induction false} PostStaysFilled(run: seq<World>, script: seq<Entry>, i: nat, j: nat)
    requires IsRun(run, script) && i <= j < |run| && LedIfPossible(run[i].s)
    requires forall k :: i <= k < j ==> !script[k].msg.Reconnect?
    ensures LedIfPossible(run[j].s)
    decreases j
  {
    if i < j {
      PostStaysFilled(run, script, i, j - 1);
      LeaderStep(run, script, j - 1, j);
    }
  }

  /** When the last player here is the leader and leaves, their reconnect finds the post vacant
      and leaves it so: a connected joiner, and no leader. */
  lemma LoneLeaderReturnsWithoutPost(w: World, name: string, t1: int, t2: int)
    requires Good(w) && w.s.leaderID != NOBODY && w.s.conns == {w.s.leaderID}
    ensures var pid := w.s.leaderID;
            && pid in w.s.players
            && var back := Reconnected(Departed(w.s, pid, t1), pid, name, t2);
               back.leaderID == NOBODY && pid in back.joinOrder && Connected(back.players, pid) && !LedIfPossible(back)
  {
    var pid := w.s.leaderID;
    var gone := Departed(w.s, pid, t1);
    forall p
      ensures !Connected(gone.players, p)
    {
      assert p in w.s.conns <==> Connected(w.s.players, p);
    }
    PromotionPicksEarliest(gone.joinOrder, gone.players);
    assert gone.leaderID == NOBODY;
    ReconnectKeepsPostIff(gone, pid, name, t2);
    assert Connected(Reconnected(gone, pid, name, t2).players, pid);
  }
}
