/** When a phase ends, and which comes next: the submission that ends a collecting phase before its
    time, and the phase in which the game rests after that. */
module PhaseFlow {
  import opened Prelude
  import opened Game
  import opened Collectors
  import opened RoundCollectors
  import opened Records
  import opened RoomInvariants
  import opened RoomSteps
  import opened Cascades
  import opened RoomPlay
  import opened Steps
  import opened Runs
  import opened WholeRuns
  import opened Permissions
  import P = Phases

  ghost predicate Ends(run: seq<World>, k: nat)
    requires k + 1 < |run|
  {
    run[k + 1].s.phaseIdx > run[k].s.phaseIdx
  }

  /** Player `p` is here and did not draw the drawing of `a`. */
  ghost predicate Due(players: Players, drawings: Drawings, p: PlayerID, a: PlayerID) {
    p in players && players[p].connected && a in drawings && a != p
  }

  /** With one more item, by `pid` for `drawing`, everybody here has one for every drawing of
      others; and there is something that somebody had to do. */
  ghost predicate LastOne<T>(players: Players, drawings: Drawings, got: Collected<T>, pid: PlayerID, drawing: DrawingID) {
    && (exists p, a :: Due(players, drawings, p, a))
    && forall p, a :: Due(players, drawings, p, a) ==>
                        (p in got && drawings[a].id in got[p]) || (p == pid && drawings[a].id == drawing)
  }

  lemma CompleteIsLast<T>(players: Players, drawings: Drawings, got: Collected<T>, pid: PlayerID, drawing: DrawingID, item: T)
    requires DrawingsOk(drawings)
    ensures Complete(players, drawings, With(got, pid, drawing, item)) <==> LastOne(players, drawings, got, pid, drawing)
  {
    var after := With(got, pid, drawing, item);
    forall p, a
      ensures Owed(players, drawings, p, a) <==> Due(players, drawings, p, a)
    {
    }
    forall p, id
      ensures Has(after, p, id) <==> (p in got && id in got[p]) || (p == pid && id == drawing)
    {
    }
  }

  lemma InOrder(run: seq<World>, script: seq<Entry>, k: nat)
    requires IsRun(run, script) && k < |script|
    ensures Good(run[k]) && Handled(run[k], script[k], run[k + 1]) && FromSomeone(script[k].msg)
  {
    AlwaysGood(run, script, k);
    assert StepAt(run, script, k);
  }

  /** Voting ends with a vote exactly if it is the last one due. */
  lemma VoteEndsPhaseIff(run: seq<World>, script: seq<Entry>, k: nat)
    requires IsRun(run, script) && k < |script| && script[k].msg.SubmitVote? && HasEffect(run, k)
    ensures run[k].contents.GotVotes?
    ensures var s, m := run[k].s, script[k].msg;
            Ends(run, k) <==>
            LastOne(s.players, DrawingsIn(s.phaseData, s.round), run[k].contents.votes, m.pid, m.drawing)
  {
    VoteTakesEffectIff(run, script, k);
    InOrder(run, script, k);
    DrawingsAreIn(run[k]);
    VoteEnds(run[k], script[k], run[k + 1]);
  }

  lemma VoteEnds(w: World, e: Entry, t: World)
    requires e.msg.SubmitVote? && Good(w) && Handled(w, e, t) && t != w
    requires w.contents.GotVotes? && DrawingsOk(DrawingsIn(w.s.phaseData, w.s.round))
    ensures t.s.phaseIdx > w.s.phaseIdx <==>
            LastOne(w.s.players, DrawingsIn(w.s.phaseData, w.s.round), w.contents.votes, e.msg.pid, e.msg.drawing)
  {
    var m, d :| VoteTaken(w, e.msg.pid, e.msg.drawing, e.msg.choice, m, d, t, e.now);
    VoteIsTaken(w, e.msg.pid, e.msg.drawing, e.msg.choice, m, d, t, e.now);
    VoteFiledIsGood(w, m, e.msg.pid, e.msg.drawing, e.msg.choice, d);
    TakenMovesOrFiles(w, m, d, t, e.now);
    CompleteIsLast(w.s.players, DrawingsIn(w.s.phaseData, w.s.round), w.contents.votes, e.msg.pid, e.msg.drawing,
                   Vote(e.msg.pid, e.msg.drawing, e.msg.choice));
  }

  /** A phase of fakes ends with a fake exactly if it is the last one due. */
  lemma FakeEndsPhaseIff(run: seq<World>, script: seq<Entry>, k: nat)
    requires IsRun(run, script) && k < |script| && script[k].msg.SubmitFake? && HasEffect(run, k)
    ensures run[k].contents.GotFakes?
    ensures var s, m := run[k].s, script[k].msg;
            Ends(run, k) <==>
            LastOne(s.players, DrawingsIn(s.phaseData, s.round), run[k].contents.fakes, m.pid, m.drawing)
  {
    FakeTakesEffectIff(run, script, k);
    InOrder(run, script, k);
    DrawingsAreIn(run[k]);
    FakeEnds(run[k], script[k], run[k + 1]);
  }

  lemma FakeEnds(w: World, e: Entry, t: World)
    requires e.msg.SubmitFake? && e.msg.pid != NOBODY && Good(w) && Handled(w, e, t) && t != w
    requires w.contents.GotFakes? && DrawingsOk(DrawingsIn(w.s.phaseData, w.s.round))
    ensures t.s.phaseIdx > w.s.phaseIdx <==>
            LastOne(w.s.players, DrawingsIn(w.s.phaseData, w.s.round), w.contents.fakes, e.msg.pid, e.msg.drawing)
  {
    var m, d :| FakeTaken(w, e.msg.pid, e.msg.drawing, e.msg.text, m, d, t, e.now);
    FakeIsTaken(w, e.msg.pid, e.msg.drawing, e.msg.text, m, d, t, e.now);
    FakeFiledIsGood(w, m, e.msg.pid, e.msg.drawing, e.msg.text, d);
    TakenMovesOrFiles(w, m, d, t, e.now);
    CompleteIsLast(w.s.players, DrawingsIn(w.s.phaseData, w.s.round), w.contents.fakes, e.msg.pid, e.msg.drawing,
                   m.contents.fakes[e.msg.pid][e.msg.drawing]);
  }

  /** A drawing phase ends with a drawing exactly if with it there are at least as many as players who
      are here and hold a prompt. */
  lemma DrawingEndsPhaseIff(run: seq<World>, script: seq<Entry>, k: nat)
    requires IsRun(run, script) && k < |script| && script[k].msg.SubmitDrawing? && HasEffect(run, k)
    ensures run[k].contents.GotDrawings?
    ensures var s, prompts := run[k].s, PromptsIn(run[k].s.phaseData, run[k].s.round);
            Ends(run, k) <==>
            |run[k].contents.items| + 1 >= |set p | p in s.players && s.players[p].connected && p in prompts|
  {
    DrawingTakesEffectIff(run, script, k);
    InOrder(run, script, k);
    DrawingEnds(run[k], script[k], run[k + 1]);
  }

  lemma DrawingEnds(w: World, e: Entry, t: World)
    requires e.msg.SubmitDrawing? && e.msg.pid != NOBODY && Good(w) && Handled(w, e, t) && t != w && w.contents.GotDrawings?
    ensures t.s.phaseIdx > w.s.phaseIdx <==> |w.contents.items| + 1 >= |Drawers(w.s.players, w.s.phaseData, w.s.round)|
  {
    var m, d :| DrawingTaken(w, e.msg.pid, true, m, d, t, e.now);
    DrawingIsTaken(w, e.msg.pid, true, m, d, t, e.now);
    DrawingFiledIsGood(w, m, e.msg.pid, true, d);
    TakenMovesOrFiles(w, m, d, t, e.now);
    OneMoreItem(w, e.msg.pid, m, d);
  }

  lemma OneMoreItem(w: World, pid: PlayerID, m: World, d: Decision)
    requires IsDrawingFiled(w, m, pid, true, d) && w.contents.GotDrawings?
    ensures m.contents.GotDrawings? && |m.contents.items| == |w.contents.items| + 1
  {
  }

  // ----- the next phase -----

  /** The position after the phase at `i` in a plan of `n` phases: drawing, fakes, voting, and, past
      the reveal and the scoring, the leaderboard; then, past the prompts, the next round's drawing,
      which is passed over if nobody is here to draw. */
  function Successor(i: nat, n: nat, somebodyHere: bool): nat {
    if i % 7 == 3 then i + 3
    else if i % 7 != 6 then i + 1
    else if i + 1 >= n then n
    else if somebodyHere then i + 2
    else i + 3
  }

  /** Where the game rests after `s`. */
  ghost function NextStop(s: State): nat {
    Successor(s.phaseIdx, |s.phases|, exists p :: p in s.players && s.players[p].connected)
  }

  lemma RestIsNextStop(s: State, result: PhaseResult)
    requires Rests(P.KindAt(s.phaseIdx)) && s.phaseIdx < |s.phases| && |s.phases| % P.PHASES_PER_ROUND == 0
    ensures NextRest(s, result) == NextStop(s)
  {
    if exists p :: p in s.players && s.players[p].connected {
      var p :| p in s.players && s.players[p].connected;
      assert p in ConnectedSet(s.players);
    }
  }

  /** Acting on a decision to advance leads to the next stop. */
  lemma AdvanceStops(m: World, d: Decision, t: World, now: int)
    requires Decided(m, d) && d.advance && Applies(m, d, t, now) && Rests(P.KindAt(m.s.phaseIdx))
    ensures t.s.phaseIdx == NextStop(m.s) && (t.s.status == InGame <==> t.s.phaseIdx < |t.s.phases|)
  {
    AdvanceRests(m, d, t, now);
    RestIsNextStop(m.s, d.result.value);
    StatusTellsPosition(t);
  }

  lemma StatusTellsPosition(t: World)
    requires Good(t) && (t.s.status == InGame || t.s.postGame)
    ensures t.s.status == InGame <==> t.s.phaseIdx < |t.s.phases|
  {
  }

  lemma TakenStops(w: World, m: World, d: Decision, t: World, now: int)
    requires w.s.status == InGame && Resting(m) && Taken(w, m, d, t, now) && t.s.phaseIdx > w.s.phaseIdx
    ensures t.s.phaseIdx == NextStop(w.s) && (t.s.status == InGame <==> t.s.phaseIdx < |t.s.phases|)
  {
    TakenDecided(w, m, d, t, now);
    AdvanceStops(m, d, t, now);
  }

  /** The parts of a submission that has ended a phase. */
  lemma SubmissionParts(w: World, e: Entry, t: World) returns (m: World, d: Decision)
    requires Good(w) && FromSomeone(e.msg) && Submits(e.msg) && Handled(w, e, t) && t != w
    ensures Taken(w, m, d, t, e.now) && Resting(m)
  {
    if e.msg.SubmitDrawing? {
      m, d :| DrawingTaken(w, e.msg.pid, true, m, d, t, e.now);
      DrawingIsTaken(w, e.msg.pid, true, m, d, t, e.now);
      DrawingFiledIsGood(w, m, e.msg.pid, true, d);
    } else if e.msg.SubmitFake? {
      m, d :| FakeTaken(w, e.msg.pid, e.msg.drawing, e.msg.text, m, d, t, e.now);
      FakeIsTaken(w, e.msg.pid, e.msg.drawing, e.msg.text, m, d, t, e.now);
      FakeFiledIsGood(w, m, e.msg.pid, e.msg.drawing, e.msg.text, d);
    } else {
      m, d :| VoteTaken(w, e.msg.pid, e.msg.drawing, e.msg.choice, m, d, t, e.now);
      VoteIsTaken(w, e.msg.pid, e.msg.drawing, e.msg.choice, m, d, t, e.now);
      VoteFiledIsGood(w, m, e.msg.pid, e.msg.drawing, e.msg.choice, d);
    }
  }

  lemma SubmissionStops(w: World, e: Entry, t: World)
    requires Good(w) && FromSomeone(e.msg) && Submits(e.msg) && w.s.status == InGame
    ensures Handled(w, e, t) && t.s.phaseIdx > w.s.phaseIdx ==>
              t.s.phaseIdx == NextStop(w.s) && (t.s.status == InGame <==> t.s.phaseIdx < |t.s.phases|)
  {
    if Handled(w, e, t) && t.s.phaseIdx > w.s.phaseIdx {
      var m, d := SubmissionParts(w, e, t);
      TakenStops(w, m, d, t, e.now);
    }
  }

  lemma PushStops(w: World, e: Entry, t: World)
    requires Good(w) && w.s.status == InGame && (e.msg.TimerFires? || e.msg.AdvanceReveal?)
    ensures Handled(w, e, t) && t.s.phaseIdx > w.s.phaseIdx ==>
              t.s.phaseIdx == NextStop(w.s) && (t.s.status == InGame <==> t.s.phaseIdx < |t.s.phases|)
  {
    if Handled(w, e, t) && t.s.phaseIdx > w.s.phaseIdx {
      if e.msg.TimerFires? {
        var m, d :| TimedOut(w, m, d, t, e.now);
        TimeoutDecided(w, m, d, t, e.now);
        AdvanceStops(m, d, t, e.now);
      } else {
        LeaderboardDecided(w);
        AdvanceStops(w, DONE, t, e.now);
      }
    }
  }

  /** A phase that ends by a submission, by the timer or by the leader's click is followed by the next
      stop; the game is over exactly if there is none. */
  lemma NextPhaseIs(run: seq<World>, script: seq<Entry>, k: nat)
    requires IsRun(run, script) && k < |script| && run[k].s.status == InGame && Ends(run, k)
    requires Submits(script[k].msg) || script[k].msg.TimerFires? || script[k].msg.AdvanceReveal?
    ensures run[k + 1].s.phaseIdx == NextStop(run[k].s)
    ensures run[k + 1].s.status == InGame <==> run[k + 1].s.phaseIdx < |run[k + 1].s.phases|
  {
    InOrder(run, script, k);
    if Submits(script[k].msg) {
      SubmissionStops(run[k], script[k], run[k + 1]);
    } else {
      PushStops(run[k], script[k], run[k + 1]);
    }
  }
}
